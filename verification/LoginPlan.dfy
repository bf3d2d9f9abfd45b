/** The checks that keep a run inside the login limit: distinct devices, and logins planned before any device is
    contacted. */
module LoginPlan {
  import opened Wrappers
  import opened GateProtocol
  import opened Faults
  import opened AttemptProtocol
  import opened Budget
  import opened Numbers
  import JD = JunosDialect
  import AR = AttemptRuns

  /** A target as the front end checks it: its name, and the host and port the connection uses. */
  datatype Row<N, P> = Row(name: N, place: P)

  datatype Clash = TwoHosts | TwoNames | Twice

  ghost predicate DistinctUpTo<N, P>(rows: seq<Row<N, P>>, n: nat)
    requires n <= |rows|
  {
    forall i, j :: 0 <= i < j < n ==> rows[i].name != rows[j].name && rows[i].place != rows[j].place
  }

  ghost predicate Distinct<N, P>(rows: seq<Row<N, P>>) {
    DistinctUpTo(rows, |rows|)
  }

  /** What a refusal says of two rows. */
  ghost predicate Clashes<N, P>(a: Row<N, P>, b: Row<N, P>, clash: Clash) {
    match clash
    case TwoHosts => a.name == b.name && a.place != b.place
    case TwoNames => a.name != b.name && a.place == b.place
    case Twice => a == b
  }

  /** The name table holds exactly the first n rows. */
  ghost predicate Named<N, P>(rows: seq<Row<N, P>>, n: nat, byName: map<N, P>)
    requires n <= |rows|
  {
    && (forall i :: 0 <= i < n ==> rows[i].name in byName)
    && (forall name :: name in byName ==> exists i :: 0 <= i < n && rows[i] == Row(name, byName[name]))
  }

  /** The place table holds exactly the first n rows. */
  ghost predicate Placed<N, P>(rows: seq<Row<N, P>>, n: nat, byPlace: map<P, N>)
    requires n <= |rows|
  {
    && (forall i :: 0 <= i < n ==> rows[i].place in byPlace)
    && (forall place :: place in byPlace ==> exists i :: 0 <= i < n && rows[i] == Row(byPlace[place], place))
  }

  lemma NamedNext<N, P>(rows: seq<Row<N, P>>, n: nat, byName: map<N, P>)
    requires n < |rows| && Named(rows, n, byName) && rows[n].name !in byName
    ensures Named(rows, n + 1, byName[rows[n].name := rows[n].place])
  {
    var next := byName[rows[n].name := rows[n].place];
    forall name | name in next ensures exists i :: 0 <= i < n + 1 && rows[i] == Row(name, next[name]) {
      if name == rows[n].name {
        assert rows[n] == Row(name, next[name]);
      } else {
        var i :| 0 <= i < n && rows[i] == Row(name, byName[name]);
        assert rows[i] == Row(name, next[name]);
      }
    }
  }

  lemma PlacedNext<N, P>(rows: seq<Row<N, P>>, n: nat, byPlace: map<P, N>)
    requires n < |rows| && Placed(rows, n, byPlace) && rows[n].place !in byPlace
    ensures Placed(rows, n + 1, byPlace[rows[n].place := rows[n].name])
  {
    var next := byPlace[rows[n].place := rows[n].name];
    forall place | place in next ensures exists i :: 0 <= i < n + 1 && rows[i] == Row(next[place], place) {
      if place == rows[n].place {
        assert rows[n] == Row(next[place], place);
      } else {
        var i :| 0 <= i < n && rows[i] == Row(byPlace[place], place);
        assert rows[i] == Row(next[place], place);
      }
    }
  }

  lemma NameClash<N, P>(rows: seq<Row<N, P>>, n: nat, byName: map<N, P>)
    requires n < |rows| && Named(rows, n, byName) && rows[n].name in byName
    ensures !Distinct(rows)
    ensures var clash := if byName[rows[n].name] == rows[n].place then Twice else TwoHosts;
            AtOdds(rows, clash)
  {
    var name := rows[n].name;
    var i :| 0 <= i < n && rows[i] == Row(name, byName[name]);
    assert Clashes(rows[i], rows[n], if byName[name] == rows[n].place then Twice else TwoHosts);
  }

  lemma PlaceClash<N, P>(rows: seq<Row<N, P>>, n: nat, byPlace: map<P, N>)
    requires n < |rows| && Placed(rows, n, byPlace)
    requires rows[n].place in byPlace && byPlace[rows[n].place] != rows[n].name
    ensures !Distinct(rows) && AtOdds(rows, TwoNames)
  {
    var place := rows[n].place;
    var i :| 0 <= i < n && rows[i] == Row(byPlace[place], place);
    assert Clashes(rows[i], rows[n], TwoNames);
  }

  /** A known place belongs to a known name. */
  lemma KnownTogether<N, P>(rows: seq<Row<N, P>>, n: nat, byName: map<N, P>, byPlace: map<P, N>, place: P)
    requires n <= |rows| && Named(rows, n, byName) && Placed(rows, n, byPlace)
    ensures place in byPlace ==> byPlace[place] in byName
  {
    if place in byPlace {
      var i :| 0 <= i < n && rows[i] == Row(byPlace[place], place);
      assert rows[i].name in byName;
    }
  }

  /** Some two rows are at odds in the way the refusal says. */
  ghost predicate AtOdds<N, P>(rows: seq<Row<N, P>>, clash: Clash) {
    exists i, j :: 0 <= i < j < |rows| && Clashes(rows[i], rows[j], clash)
  }

  /** Both tables hold exactly the first n rows, which are distinct. */
  ghost predicate Tabled<N, P>(rows: seq<Row<N, P>>, n: nat, byName: map<N, P>, byPlace: map<P, N>)
    requires n <= |rows|
  {
    DistinctUpTo(rows, n) && Named(rows, n, byName) && Placed(rows, n, byPlace)
  }

  lemma TabledNext<N, P>(rows: seq<Row<N, P>>, n: nat, byName: map<N, P>, byPlace: map<P, N>)
    requires n < |rows| && Tabled(rows, n, byName, byPlace) && rows[n].name !in byName
    requires rows[n].place in byPlace ==> byPlace[rows[n].place] == rows[n].name
    ensures Tabled(rows, n + 1, byName[rows[n].name := rows[n].place], byPlace[rows[n].place := rows[n].name])
  {
    KnownTogether(rows, n, byName, byPlace, rows[n].place);
    DistinctNext(rows, n, byName, byPlace);
    NamedNext(rows, n, byName);
    PlacedNext(rows, n, byPlace);
  }

  lemma DistinctNext<N, P>(rows: seq<Row<N, P>>, n: nat, byName: map<N, P>, byPlace: map<P, N>)
    requires n < |rows| && Tabled(rows, n, byName, byPlace)
    requires rows[n].name !in byName && rows[n].place !in byPlace
    ensures DistinctUpTo(rows, n + 1)
  {
  }

  /** Accepts exactly the lists without a repeated name or place; a refusal says what some two rows do wrong. */
  method CheckUnique<N(==), P(==)>(rows: seq<Row<N, P>>) returns (clash: Option<Clash>)
    ensures clash.None? <==> Distinct(rows)
    ensures clash.Some? ==> AtOdds(rows, clash.value)
  {
    var byName: map<N, P> := map[];
    var byPlace: map<P, N> := map[];
    for n := 0 to |rows|
      invariant Tabled(rows, n, byName, byPlace)
    {
      var row := rows[n];
      if row.name in byName && byName[row.name] != row.place {
        NameClash(rows, n, byName);
        return Some(TwoHosts);
      }
      if row.place in byPlace && byPlace[row.place] != row.name {
        PlaceClash(rows, n, byPlace);
        return Some(TwoNames);
      }
      if row.name in byName {
        NameClash(rows, n, byName);
        return Some(Twice);
      }
      TabledNext(rows, n, byName, byPlace);
      byName := byName[row.name := row.place];
      byPlace := byPlace[row.place := row.name];
    }
    clash := None;
  }

  /** How the gate keys a device. */
  function GateKey(host: string, port: nat): Key {
    host + "|" + JD.Decimal(port)
  }

  lemma {:induction false} DecimalInjective(a: nat, b: nat)
    requires JD.Decimal(a) == JD.Decimal(b)
    ensures a == b
  {
    JD.ReadDecimal(a, 0, "");
    JD.ReadDecimal(b, 0, "");
    JD.AppendedToZero(a);
    JD.AppendedToZero(b);
    assert JD.Decimal(a) + "" == JD.Decimal(b) + "";
  }

  lemma LastBar(host: string, digits: string)
    requires AllDigits(digits)
    ensures var key := host + "|" + digits;
            key[|host|] == '|' && forall j :: |host| < j < |key| ==> key[j] != '|'
  {
    var key := host + "|" + digits;
    forall j | |host| < j < |key| ensures key[j] != '|' {
      assert key[j] == digits[j - |host| - 1];
    }
  }

  /** Different devices never share a gate key, even when a host name has a bar in it. */
  lemma GateKeyInjective(host1: string, port1: nat, host2: string, port2: nat)
    requires GateKey(host1, port1) == GateKey(host2, port2)
    ensures host1 == host2 && port1 == port2
  {
    var d1, d2 := JD.Decimal(port1), JD.Decimal(port2);
    var key := GateKey(host1, port1);
    JD.DecimalPlain(port1);
    JD.DecimalPlain(port2);
    assert key == host1 + "|" + d1 && key == host2 + "|" + d2;
    LastBar(host1, d1);
    LastBar(host2, d2);
    assert host1 == key[..|host1|] && host2 == key[..|host2|];
    assert d1 == key[|host1| + 1..] && d2 == key[|host2| + 1..];
    DecimalInjective(port1, port2);
  }

  // ----- the plan

  function Listed<K(==)>(keys: seq<K>, key: K): nat {
    if keys == [] then 0 else Listed(keys[..|keys| - 1], key) + if keys[|keys| - 1] == key then 1 else 0
  }

  /** Whether the run is let through: the most logins it may make to one device is within the limit. */
  method PlanLogins<K(==)>(keys: seq<K>, retries: nat, limit: nat) returns (ok: bool)
    ensures ok <==> forall i :: 0 <= i < |keys| ==> Listed(keys, keys[i]) * (retries + 1) <= limit
  {
    var devices: map<K, nat> := map[];
    var most := 0;
    for n := 0 to |keys|
      invariant forall key :: key in devices <==> key in keys[..n]
      invariant forall key :: key in devices ==> devices[key] == Listed(keys[..n], key)
      invariant forall key :: key in devices ==> devices[key] <= most
      invariant most == 0 || exists i :: 0 <= i < n && Listed(keys[..n], keys[i]) == most
      invariant n > 0 ==> most > 0
    {
      var key := keys[n];
      assert keys[..n + 1][..n] == keys[..n];
      NotListed(keys[..n], key);
      var seen := if key in devices then devices[key] + 1 else 1;
      devices := devices[key := seen];
      if seen > most {
        most := seen;
      }
      assert seen == Listed(keys[..n + 1], key);
    }
    assert keys[..|keys|] == keys;
    ok := most * (retries + 1) <= limit;
    if ok {
      forall i | 0 <= i < |keys| ensures Listed(keys, keys[i]) * (retries + 1) <= limit {
        assert keys[i] in devices;
        Scaled(Listed(keys, keys[i]), most, retries + 1);
      }
    }
  }

  lemma {:induction false} NotListed<K>(keys: seq<K>, key: K)
    ensures key !in keys ==> Listed(keys, key) == 0
  {
    if keys != [] {
      NotListed(keys[..|keys| - 1], key);
    }
  }

  lemma Scaled(a: nat, b: nat, c: nat)
    requires a <= b
    ensures a * c <= b * c
  {
  }

  // ----- targets and what they are counted by

  type Place = (string, nat)
  datatype Driver = Driver(name: string, defaultPort: nat)

  /** A target; without a driver it never comes to the gate. */
  datatype Target = Target(name: string, host: string, port: Option<nat>, driver: Option<Driver>)

  /** The host and port the connection uses. */
  function PlaceOf(t: Target): Place {
    (t.host, if t.port.Some? then t.port.value else if t.driver.Some? then t.driver.value.defaultPort else 22)
  }

  /** What the plan counts a target by: the session it would use, the run's user, policy and credential being one,
      or its host and port as listed when its driver is unknown. */
  datatype PlanKey = Session(driver: string, place: Place) | Unresolved(host: string, port: Option<nat>)

  function KeyOf(t: Target): PlanKey {
    if t.driver.Some? then Session(t.driver.value.name, PlaceOf(t)) else Unresolved(t.host, t.port)
  }

  function Keys(targets: seq<Target>): seq<PlanKey> {
    seq(|targets|, i requires 0 <= i < |targets| => KeyOf(targets[i]))
  }

  function Rows(targets: seq<Target>): seq<Row<string, Place>> {
    seq(|targets|, i requires 0 <= i < |targets| => Row(targets[i].name, PlaceOf(targets[i])))
  }

  /** The plan's test, as PlanLogins makes it. */
  ghost predicate PlanPasses(targets: seq<Target>, retries: nat, limit: nat) {
    forall i :: 0 <= i < |targets| ==> Listed(Keys(targets), KeyOf(targets[i])) * (retries + 1) <= limit
  }

  predicate At(t: Target, place: Place) {
    t.driver.Some? && PlaceOf(t) == place
  }

  /** How many of the first n targets reach a host and port. */
  function OnPlace(targets: seq<Target>, n: nat, place: Place): nat
    requires n <= |targets|
  {
    if n == 0 then 0 else OnPlace(targets, n - 1, place) + if At(targets[n - 1], place) then 1 else 0
  }

  /** What the first n targets at a place may ask together, each asking as often. */
  function Together(targets: seq<Target>, n: nat, place: Place, each: nat): nat
    requires n <= |targets|
  {
    if n == 0 then 0 else Together(targets, n - 1, place, each) + if At(targets[n - 1], place) then each else 0
  }

  lemma {:induction false} TogetherIsProduct(targets: seq<Target>, n: nat, place: Place, each: nat)
    requires n <= |targets|
    ensures Together(targets, n, place, each) == OnPlace(targets, n, place) * each
  {
    if n > 0 {
      TogetherIsProduct(targets, n - 1, place, each);
      if At(targets[n - 1], place) {
        assert OnPlace(targets, n, place) * each == OnPlace(targets, n - 1, place) * each + each;
      }
    }
  }

  /** What the gate needs: for each host and port, its targets' attempts together are within the limit. */
  ghost predicate Fits(targets: seq<Target>, retries: nat, limit: nat) {
    forall i :: 0 <= i < |targets| && targets[i].driver.Some? ==>
      OnPlace(targets, |targets|, PlaceOf(targets[i])) * (retries + 1) <= limit
  }

  // ----- a run's logins at the gate

  /** A login some target's attempt asks the gate for. */
  datatype Asked = Asked(target: nat, now: Time)

  function AskedBy(asks: seq<Asked>, target: nat): nat {
    if asks == [] then 0 else AskedBy(asks[..|asks| - 1], target) + if asks[|asks| - 1].target == target then 1 else 0
  }

  ghost predicate Resolved(asks: seq<Asked>, targets: seq<Target>) {
    forall n :: 0 <= n < |asks| ==> asks[n].target < |targets| && targets[asks[n].target].driver.Some?
  }

  function KeyAt(place: Place): Key {
    GateKey(place.0, place.1)
  }

  ghost function AtGate(asks: seq<Asked>, targets: seq<Target>): seq<Login>
    requires Resolved(asks, targets)
  {
    seq(|asks|, n requires 0 <= n < |asks| => Login(KeyAt(PlaceOf(targets[asks[n].target])), asks[n].now))
  }

  /** A run against a fresh gate: each target asks for as many logins as its attempts make in its surroundings, in
      any order of the targets' steps. */
  ghost predicate IsRun(g: Gate, targets: seq<Target>, retries: nat, modes: seq<Mode>, envs: seq<Env>,
      asks: seq<Asked>) {
    && FreshGate(g) && |modes| == |targets| && |envs| == |targets| && Resolved(asks, targets)
    && (forall i :: 0 <= i < |targets| ==> AskedBy(asks, i) <= RunTarget(START, modes[i], retries, envs[i]).0.logins)
    && Monotone(AtGate(asks, targets))
  }

  ghost predicate NoneRefused(g: Gate, calls: seq<Login>) {
    forall n :: 0 <= n < |calls| ==> CountLogin(AfterLogins(g, calls[..n]), calls[n].key, calls[n].now).1.Admitted?
  }

  /** However the devices answer and the targets interleave, the rate limit refuses no attempt of the run. */
  ghost predicate NeverTurnedAway(targets: seq<Target>, retries: nat, modes: seq<Mode>, limit: nat) {
    forall g: Gate, envs, asks | g.limit == limit && IsRun(g, targets, retries, modes, envs, asks) ::
      NoneRefused(g, AtGate(asks, targets))
  }

  // ----- the condition is enough

  /** The asks of the first n targets at a place. */
  function AskedAt(asks: seq<Asked>, targets: seq<Target>, n: nat, place: Place): nat
    requires n <= |targets|
  {
    if n == 0 then 0
    else AskedAt(asks, targets, n - 1, place) + if At(targets[n - 1], place) then AskedBy(asks, n - 1) else 0
  }

  lemma {:induction false} AskedNext(asks: seq<Asked>, targets: seq<Target>, n: nat, place: Place)
    requires n <= |targets| && asks != []
    ensures AskedAt(asks, targets, n, place)
         == AskedAt(asks[..|asks| - 1], targets, n, place)
          + if asks[|asks| - 1].target < n && At(targets[asks[|asks| - 1].target], place) then 1 else 0
  {
    if n > 0 {
      AskedNext(asks, targets, n - 1, place);
    }
  }

  lemma {:induction false} NoneAsked(targets: seq<Target>, n: nat, place: Place)
    requires n <= |targets|
    ensures AskedAt([], targets, n, place) == 0
  {
    if n > 0 {
      NoneAsked(targets, n - 1, place);
    }
  }

  /** The gate counts for a host and port what all its targets ask together. */
  lemma {:induction false} CallsAreAsks(asks: seq<Asked>, targets: seq<Target>, place: Place)
    requires Resolved(asks, targets)
    ensures Calls(AtGate(asks, targets), KeyAt(place)) == AskedAt(asks, targets, |targets|, place)
  {
    if asks == [] {
      NoneAsked(targets, |targets|, place);
    } else {
      var shorter, last := asks[..|asks| - 1], PlaceOf(targets[asks[|asks| - 1].target]);
      CallsAreAsks(shorter, targets, place);
      AskedNext(asks, targets, |targets|, place);
      assert AtGate(asks, targets)[..|asks| - 1] == AtGate(shorter, targets);
      if KeyAt(last) == KeyAt(place) {
        GateKeyInjective(last.0, last.1, place.0, place.1);
      }
    }
  }

  lemma {:induction false} AskedWithin(asks: seq<Asked>, targets: seq<Target>, n: nat, place: Place, each: nat)
    requires n <= |targets| && forall i :: 0 <= i < n ==> AskedBy(asks, i) <= each
    ensures AskedAt(asks, targets, n, place) <= Together(targets, n, place, each)
  {
    if n > 0 {
      AskedWithin(asks, targets, n - 1, place, each);
    }
  }

  lemma {:induction false} EarlierAsks(calls: seq<Login>, n: nat)
    requires n < |calls|
    ensures Calls(calls[..n], calls[n].key) < Calls(calls, calls[n].key)
  {
    var shorter := calls[..|calls| - 1];
    if n == |calls| - 1 {
      assert calls[..n] == shorter;
    } else {
      EarlierAsks(shorter, n);
      assert shorter[..n] == calls[..n];
    }
  }

  lemma AsksBounded(g: Gate, targets: seq<Target>, retries: nat, modes: seq<Mode>, envs: seq<Env>, asks: seq<Asked>)
    requires IsRun(g, targets, retries, modes, envs, asks)
    ensures forall i :: 0 <= i < |targets| ==> AskedBy(asks, i) <= retries + 1
  {
    forall i | 0 <= i < |targets| ensures AskedBy(asks, i) <= retries + 1 {
      AR.AttemptsBounded(START, modes[i], retries, envs[i]);
    }
  }

  /** Calls asked for at most `each` times by each target, and together within the limit, are all admitted. */
  lemma WithinLimit(g: Gate, targets: seq<Target>, each: nat, asks: seq<Asked>, n: nat)
    requires FreshGate(g) && Resolved(asks, targets) && Monotone(AtGate(asks, targets)) && n < |asks|
    requires forall i :: 0 <= i < |targets| ==> AskedBy(asks, i) <= each
    requires Together(targets, |targets|, PlaceOf(targets[asks[n].target]), each) <= g.limit
    ensures var calls := AtGate(asks, targets);
            CountLogin(AfterLogins(g, calls[..n]), calls[n].key, calls[n].now).1.Admitted?
  {
    var calls, place := AtGate(asks, targets), PlaceOf(targets[asks[n].target]);
    CallsAreAsks(asks, targets, place);
    AskedWithin(asks, targets, |targets|, place, each);
    EarlierAsks(calls, n);
    EnoughAllowance(g, calls, calls[n].key, n);
  }

  lemma FitsIsEnough(g: Gate, targets: seq<Target>, retries: nat, modes: seq<Mode>, envs: seq<Env>, asks: seq<Asked>)
    requires IsRun(g, targets, retries, modes, envs, asks) && Fits(targets, retries, g.limit)
    ensures NoneRefused(g, AtGate(asks, targets))
  {
    AsksBounded(g, targets, retries, modes, envs, asks);
    forall n | 0 <= n < |asks| ensures Together(targets, |targets|, PlaceOf(targets[asks[n].target]),
        retries + 1) <= g.limit {
      TogetherIsProduct(targets, |targets|, PlaceOf(targets[asks[n].target]), retries + 1);
    }
    var calls := AtGate(asks, targets);
    forall n | 0 <= n < |calls|
      ensures CountLogin(AfterLogins(g, calls[..n]), calls[n].key, calls[n].now).1.Admitted?
    {
      WithinLimit(g, targets, retries + 1, asks, n);
    }
  }

  // ----- and needed

  /** Every open is dropped. */
  const DROPPING := Env(_ => Bad(SESSION_LOST, true), _ => AR.FRESH_LOGIN)

  /** Then the attempts use up the retries, each with its login. */
  lemma {:induction false} DroppedToTheLast(t: Trace, mode: Mode, retries: nat)
    requires t.attempts <= retries
    ensures RunTarget(t, mode, retries, DROPPING).0.logins == t.logins + retries + 1 - t.attempts
    decreases retries - t.attempts
  {
    RetryIsBounded(t, mode, retries, DROPPING);
    var (after, tried) := Attempt(t, mode, retries, DROPPING);
    assert after.logins == t.logins + 1 && after.attempts == t.attempts + 1;
    assert Again(tried) <==> after.attempts <= retries;
    if Again(tried) {
      DroppedToTheLast(after, mode, retries);
    }
  }

  /** Each of the first n targets at the place asks `each` times, all at once. */
  function Burst(targets: seq<Target>, n: nat, place: Place, each: nat): seq<Asked>
    requires n <= |targets|
  {
    if n == 0 then []
    else Burst(targets, n - 1, place, each) + if At(targets[n - 1], place) then seq(each, _ => Asked(n - 1,
        0.0)) else []
  }

  lemma {:induction false} AskedByBoth(a: seq<Asked>, b: seq<Asked>, i: nat)
    ensures AskedBy(a + b, i) == AskedBy(a, i) + AskedBy(b, i)
  {
    if b == [] {
      assert a + b == a;
    } else {
      AskedByBoth(a, b[..|b| - 1], i);
      assert (a + b)[..|a + b| - 1] == a + b[..|b| - 1];
    }
  }

  lemma {:induction false} AskedByOne(target: nat, each: nat, i: nat)
    ensures AskedBy(seq(each, _ => Asked(target, 0.0)), i) == if i == target then each else 0
  {
    if each > 0 {
      AskedByOne(target, each - 1, i);
      assert seq(each, _ => Asked(target, 0.0))[..each - 1] == seq(each - 1, _ => Asked(target, 0.0));
    }
  }

  lemma {:induction false} BurstAsks(targets: seq<Target>, n: nat, place: Place, each: nat, i: nat)
    requires n <= |targets|
    ensures AskedBy(Burst(targets, n, place, each), i) <= if i < n then each else 0
  {
    if n > 0 {
      BurstAsks(targets, n - 1, place, each, i);
      if At(targets[n - 1], place) {
        AskedByBoth(Burst(targets, n - 1, place, each), seq(each, _ => Asked(n - 1, 0.0)), i);
        AskedByOne(n - 1, each, i);
      } else {
        assert Burst(targets, n, place, each) == Burst(targets, n - 1, place, each);
      }
    }
  }

  lemma {:induction false} BurstShape(targets: seq<Target>, n: nat, place: Place, each: nat)
    requires n <= |targets|
    ensures var asks := Burst(targets, n, place, each);
            && |asks| == Together(targets, n, place, each)
            && forall k :: 0 <= k < |asks| ==>
                 asks[k].target < n && At(targets[asks[k].target], place) && asks[k].now == 0.0
  {
    if n > 0 {
      BurstShape(targets, n - 1, place, each);
    }
  }

  /** As many logins at one moment as the limit allows, and the next is refused. */
  lemma {:induction false} LimitReached(g: Gate, calls: seq<Login>, key: Key, n: nat)
    requires FreshGate(g) && n <= |calls| && n <= g.limit
    requires forall k :: 0 <= k < |calls| ==> calls[k] == Login(key, 0.0)
    ensures var after := AfterLogins(g, calls[..n]);
            && after == g.(attempts := after.attempts) && Attempts(after, key) == seq(n, _ => 0.0)
            && Recent(Attempts(after, key), 0.0) == Attempts(after, key)
  {
    if n == 0 {
      assert Attempts(g, key) == [];
    } else {
      LimitReached(g, calls, key, n - 1);
      assert calls[..n][..n - 1] == calls[..n - 1];
      AllRecent(n);
    }
  }

  lemma {:induction false} AllRecent(n: nat)
    ensures Recent(seq(n, _ => 0.0), 0.0) == seq(n, _ => 0.0)
  {
    if n > 0 {
      AllRecent(n - 1);
      assert seq(n, _ => 0.0)[..n - 1] == seq(n - 1, _ => 0.0);
      assert !Stale(0.0, 0.0);
    }
  }

  function Unused(limit: nat): Gate {
    Gate(limit, 0, false, {}, map[], map[], false, false)
  }

  /** With every open dropped, the burst is what the attempts ask, all of them at one moment. */
  lemma BurstIsRun(targets: seq<Target>, place: Place, retries: nat, modes: seq<Mode>, limit: nat)
    requires |modes| == |targets|
    ensures var asks := Burst(targets, |targets|, place, retries + 1);
            IsRun(Unused(limit), targets, retries, modes, seq(|targets|, _ => DROPPING), asks)
  {
    BurstShape(targets, |targets|, place, retries + 1);
    forall k | 0 <= k < |targets|
      ensures AskedBy(Burst(targets, |targets|, place, retries + 1), k)
           <= RunTarget(START, modes[k], retries, DROPPING).0.logins
    {
      BurstAsks(targets, |targets|, place, retries + 1, k);
      DroppedToTheLast(START, modes[k], retries);
    }
  }

  lemma BurstRefused(targets: seq<Target>, place: Place, each: nat, limit: nat)
    requires Together(targets, |targets|, place, each) > limit
    ensures var asks := Burst(targets, |targets|, place, each);
            Resolved(asks, targets) && !NoneRefused(Unused(limit), AtGate(asks, targets))
  {
    BurstShape(targets, |targets|, place, each);
    var calls := AtGate(Burst(targets, |targets|, place, each), targets);
    LimitReached(Unused(limit), calls, KeyAt(place), limit);
    assert !CountLogin(AfterLogins(Unused(limit), calls[..limit]), calls[limit].key, calls[limit].now).1.Admitted?;
  }

  lemma FitsIsNeeded(targets: seq<Target>, retries: nat, modes: seq<Mode>, limit: nat, i: nat)
    requires |modes| == |targets| && i < |targets| && targets[i].driver.Some?
    requires Together(targets, |targets|, PlaceOf(targets[i]), retries + 1) > limit
    ensures !NeverTurnedAway(targets, retries, modes, limit)
  {
    BurstIsRun(targets, PlaceOf(targets[i]), retries, modes, limit);
    BurstRefused(targets, PlaceOf(targets[i]), retries + 1, limit);
  }

  /** Exactly when the rate limit refuses no attempt, whatever the targets do: for each host and port, its targets'
      attempts together are within the limit. */
  lemma NeverTurnedAwayIff(targets: seq<Target>, retries: nat, modes: seq<Mode>, limit: nat)
    requires |modes| == |targets|
    ensures NeverTurnedAway(targets, retries, modes, limit) <==> Fits(targets, retries, limit)
  {
    if Fits(targets, retries, limit) {
      forall g: Gate, envs, asks | g.limit == limit && IsRun(g, targets, retries, modes, envs, asks)
        ensures NoneRefused(g, AtGate(asks, targets))
      {
        FitsIsEnough(g, targets, retries, modes, envs, asks);
      }
    } else {
      var i :| 0 <= i < |targets| && targets[i].driver.Some?
        && OnPlace(targets, |targets|, PlaceOf(targets[i])) * (retries + 1) > limit;
      TogetherIsProduct(targets, |targets|, PlaceOf(targets[i]), retries + 1);
      FitsIsNeeded(targets, retries, modes, limit, i);
    }
  }

  // ----- the plan against the condition

  /** Each host and port is reached through one driver. */
  ghost predicate OneDriver(targets: seq<Target>) {
    forall i, j | 0 <= i < |targets| && 0 <= j < |targets| && targets[i].driver.Some? && targets[j].driver.Some? ::
      PlaceOf(targets[i]) == PlaceOf(targets[j]) ==> targets[i].driver.value.name == targets[j].driver.value.name
  }

  /** Counted by session key, a device has at least the listings of its host and port. */
  lemma {:induction false} ListedCoversPlace(targets: seq<Target>, n: nat, i: nat)
    requires OneDriver(targets) && n <= |targets| && i < |targets| && targets[i].driver.Some?
    ensures OnPlace(targets, n, PlaceOf(targets[i])) <= Listed(Keys(targets)[..n], KeyOf(targets[i]))
  {
    if n > 0 {
      ListedCoversPlace(targets, n - 1, i);
      assert Keys(targets)[..n][..n - 1] == Keys(targets)[..n - 1];
    }
  }

  /** The login plan is sufficient: where each host and port is reached through one driver, as it is when the
      devices are distinct, a run that passes the plan is never turned away. */
  lemma PlanSuffices(targets: seq<Target>, retries: nat, modes: seq<Mode>, limit: nat)
    requires |modes| == |targets| && PlanPasses(targets, retries, limit) && (OneDriver(targets)
        || Distinct(Rows(targets)))
    ensures NeverTurnedAway(targets, retries, modes, limit)
  {
    if Distinct(Rows(targets)) {
      DistinctIsOneDriver(targets);
    }
    forall i | 0 <= i < |targets| && targets[i].driver.Some?
      ensures OnPlace(targets, |targets|, PlaceOf(targets[i])) * (retries + 1) <= limit
    {
      ListedCoversPlace(targets, |targets|, i);
      assert Keys(targets)[..|targets|] == Keys(targets);
      Scaled(OnPlace(targets, |targets|, PlaceOf(targets[i])), Listed(Keys(targets), KeyOf(targets[i])), retries + 1);
    }
    NeverTurnedAwayIff(targets, retries, modes, limit);
  }

  lemma DistinctIsOneDriver(targets: seq<Target>)
    requires Distinct(Rows(targets))
    ensures OneDriver(targets)
  {
    forall i, j | 0 <= i < j < |targets| ensures PlaceOf(targets[i]) != PlaceOf(targets[j]) {
      assert Rows(targets)[i].place != Rows(targets)[j].place;
    }
  }

  /** Counting by session key alone is not enough: one host and port listed under two drivers passes the plan, and
      the run can be turned away. */
  lemma SharedPortRefused(a: Target, b: Target, modes: seq<Mode>)
    requires a.driver.Some? && b.driver.Some? && a.driver.value.name != b.driver.value.name && PlaceOf(a) == PlaceOf(b)
    requires |modes| == 2
    ensures PlanPasses([a, b], 0, 1) && !NeverTurnedAway([a, b], 0, modes, 1)
  {
    var targets, place := [a, b], PlaceOf(a);
    TwoListed(KeyOf(a), KeyOf(b));
    assert Keys(targets) == [KeyOf(a), KeyOf(b)];
    assert Together(targets, 1, place, 1) == 1;
    assert Together(targets, 2, place, 1) == 2;
    FitsIsNeeded(targets, 0, modes, 1, 0);
  }

  lemma TwoListed<K>(a: K, b: K)
    requires a != b
    ensures Listed([a, b], a) == 1 && Listed([a, b], b) == 1
  {
    assert [a, b][..1] == [a] && [a][..0] == [];
    assert Listed([a], a) == 1 && Listed([a], b) == 0;
  }

  // ----- workers

  /** Python's floor division by a positive number is Euclidean division. */
  function FitWorkers(workers: int, limit: Option<nat>): (fitted: int)
    ensures limit.None? ==> fitted == workers
    ensures limit.Some? && fitted > 1 ==> FDS_BASE + FDS_PER_WORKER * fitted <= limit.value
    ensures limit.Some? && workers >= 1 && fitted < workers ==> FDS_BASE + FDS_PER_WORKER * (fitted + 1) > limit.value
    ensures limit.Some? ==> fitted >= 1 && (workers >= 1 ==> fitted <= workers)
  {
    match limit
    case None => workers
    case Some(l) => Max(1, Min(workers, (l - FDS_BASE) / FDS_PER_WORKER))
  }
}
