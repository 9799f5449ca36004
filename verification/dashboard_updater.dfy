/** The per-motor dashboard bridge: publishes the encoder's readings and pushes
    PID gains edited on the dashboard through to the motor's PID controller. */
module DashboardUpdater {
  import opened Telemetry

  datatype Option<T> = None | Some(value: T)

  /** The seven PID settings a motor is configured with. */
  datatype Gains = Gains(p: real, i: real, d: real, iZone: real, feedForward: real,
                         minOutput: real, maxOutput: real)

  /** One setter call on the hardware PID controller. */
  datatype Write =
    | SetP(p: real) | SetI(i: real) | SetD(d: real) | SetIZone(iZone: real)
    | SetFF(feedForward: real) | SetOutputRange(min: real, max: real)

  /** The encoder's position, velocity and inversion at one call. */
  datatype Reading = Reading(position: real, velocity: real, inverted: bool)

  /** The ten keys an updater publishes and reads under. */
  datatype Keys = Keys(position: string, velocity: string, inverted: string,
                       pGain: string, iGain: string, dGain: string, iZone: string,
                       feedForward: string, minOutput: string, maxOutput: string)

  /** The keys of the motor called name. */
  function KeysFor(name: string): Keys {
    Keys(Key(name, Position), Key(name, Velocity), Key(name, Inverted),
         Key(name, PGain), Key(name, IGain), Key(name, DGain), Key(name, IZone),
         Key(name, FeedForward), Key(name, MinOutput), Key(name, MaxOutput))
  }

  /** The keys in declaration order. */
  function KeyList(k: Keys): seq<string> {
    [k.position, k.velocity, k.inverted, k.pGain, k.iGain, k.dGain, k.iZone,
     k.feedForward, k.minOutput, k.maxOutput]
  }

  /** No two of the keys coincide. */
  ghost predicate Distinct(k: Keys) {
    forall i, j :: 0 <= i < j < |KeyList(k)| ==> KeyList(k)[i] != KeyList(k)[j]
  }

  /** A motor's ten keys are pairwise different, so no published value
      overwrites another and no gain is read from a reading's key. */
  lemma KeysForDistinct(name: string)
    ensures Distinct(KeysFor(name))
  {
    var fields := [Position, Velocity, Inverted, PGain, IGain, DGain, IZone,
                   FeedForward, MinOutput, MaxOutput];
    var keys := KeyList(KeysFor(name));
    assert forall i :: 0 <= i < |keys| ==> keys[i] == Key(name, fields[i]);
    forall i, j | 0 <= i < j < |keys|
      ensures keys[i] != keys[j]
    {
      if keys[i] == keys[j] {
        KeyInjective(name, fields[i], name, fields[j]);
      }
    }
  }

  /** What one updateDashboard call leaves behind: the store and the setter calls. */
  datatype Effect = Effect(table: Table, writes: seq<Write>)

  /** The gains the dashboard shows under keys; a gain whose key holds no
      number shows as its cached value. */
  function Shown(keys: Keys, cache: Gains, table: Table): Gains {
    Gains(NumberOr(table, keys.pGain, cache.p),
          NumberOr(table, keys.iGain, cache.i),
          NumberOr(table, keys.dGain, cache.d),
          NumberOr(table, keys.iZone, cache.iZone),
          NumberOr(table, keys.feedForward, cache.feedForward),
          NumberOr(table, keys.minOutput, cache.minOutput),
          NumberOr(table, keys.maxOutput, cache.maxOutput))
  }

  /** The controller's settings after one setter call. */
  function Perform(hw: Gains, w: Write): Gains {
    match w
    case SetP(v) => hw.(p := v)
    case SetI(v) => hw.(i := v)
    case SetD(v) => hw.(d := v)
    case SetIZone(v) => hw.(iZone := v)
    case SetFF(v) => hw.(feedForward := v)
    case SetOutputRange(lo, hi) => hw.(minOutput := lo, maxOutput := hi)
  }

  /** The controller's settings after a sequence of setter calls. */
  function Apply(hw: Gains, ws: seq<Write>): Gains
    decreases |ws|
  {
    if ws == [] then hw else Apply(Perform(hw, ws[0]), ws[1..])
  }

  /** Where each setter stands in updateDashboard's fixed order. */
  function Rank(w: Write): nat {
    match w
    case SetP(_) => 0
    case SetI(_) => 1
    case SetD(_) => 2
    case SetIZone(_) => 3
    case SetFF(_) => 4
    case SetOutputRange(_, _) => 5
  }

  /** The call w, when it is to be made. */
  function When(made: bool, w: Write): seq<Write> {
    if made then [w] else []
  }

  /** The setter calls that bring a controller holding cache to the gains
      shown: each gain whose shown value differs exactly from its cached one,
      and the output range whole when either bound differs. */
  function Reconcile(cache: Gains, shown: Gains): seq<Write> {
    When(shown.p != cache.p, SetP(shown.p))
    + When(shown.i != cache.i, SetI(shown.i))
    + When(shown.d != cache.d, SetD(shown.d))
    + When(shown.iZone != cache.iZone, SetIZone(shown.iZone))
    + When(shown.feedForward != cache.feedForward, SetFF(shown.feedForward))
    + When(shown.minOutput != cache.minOutput || shown.maxOutput != cache.maxOutput,
           SetOutputRange(shown.minOutput, shown.maxOutput))
  }

  /** The setter calls one updateDashboard makes on a motor with a PID
      controller: every gain is read from table, defaulting to the cache. */
  function SyncWrites(keys: Keys, cache: Gains, table: Table): seq<Write> {
    Reconcile(cache, Shown(keys, cache, table))
  }

  /** Setter calls in sequence. */
  lemma {:induction false} ApplyAppend(hw: Gains, a: seq<Write>, b: seq<Write>)
    ensures Apply(hw, a + b) == Apply(Apply(hw, a), b)
    decreases |a|
  {
    if a == [] {
      assert a + b == b;
    } else {
      assert (a + b)[0] == a[0];
      assert (a + b)[1..] == a[1..] + b;
      ApplyAppend(Perform(hw, a[0]), a[1..], b);
      assert Apply(hw, a + b) == Apply(Perform(hw, a[0]), a[1..] + b);
    }
  }

  /** Write-through: a controller that holds the cached gains holds exactly
      the shown ones after the reconciling calls. */
  lemma ReconcileWritesThrough(cache: Gains, shown: Gains)
    ensures Apply(cache, Reconcile(cache, shown)) == shown
  {
    var a := When(shown.p != cache.p, SetP(shown.p));
    var b := When(shown.i != cache.i, SetI(shown.i));
    var c := When(shown.d != cache.d, SetD(shown.d));
    var d := When(shown.iZone != cache.iZone, SetIZone(shown.iZone));
    var e := When(shown.feedForward != cache.feedForward, SetFF(shown.feedForward));
    var f := When(shown.minOutput != cache.minOutput || shown.maxOutput != cache.maxOutput,
                  SetOutputRange(shown.minOutput, shown.maxOutput));
    ApplyAppend(cache, a, b);
    ApplyAppend(cache, a + b, c);
    ApplyAppend(cache, a + b + c, d);
    ApplyAppend(cache, a + b + c + d, e);
    ApplyAppend(cache, a + b + c + d + e, f);
    assert Apply(cache, a) == cache.(p := shown.p);
    assert Apply(cache, a + b) == cache.(p := shown.p, i := shown.i);
    assert Apply(cache, a + b + c) == cache.(p := shown.p, i := shown.i, d := shown.d);
  }

  /** Writes happen only on change: none exactly when the shown gains equal
      the cache, and every call alters a cached setting. */
  lemma ReconcileOnlyOnChange(cache: Gains, shown: Gains)
    ensures Reconcile(cache, shown) == [] <==> shown == cache
    ensures forall w :: w in Reconcile(cache, shown) ==> Perform(cache, w) != cache
  {
  }

  /** Six calls appended one after another append their concatenation. */
  lemma AppendSix(w0: seq<Write>, w1: seq<Write>, w2: seq<Write>, w3: seq<Write>, w4: seq<Write>,
                  w5: seq<Write>, w6: seq<Write>, all: seq<Write>,
                  a: seq<Write>, b: seq<Write>, c: seq<Write>, d: seq<Write>, e: seq<Write>, f: seq<Write>)
    requires w1 == w0 + a && w2 == w1 + b && w3 == w2 + c && w4 == w3 + d && w5 == w4 + e && w6 == w5 + f
    requires all == a + b + c + d + e + f
    ensures w6 == w0 + all
  {
    assert w6 == w0 + (a + b + c + d + e + f);
  }

  /** Calls in strictly increasing rank. */
  ghost predicate Ordered(ws: seq<Write>) {
    forall j, k :: 0 <= j < k < |ws| ==> Rank(ws[j]) < Rank(ws[k])
  }

  lemma OrderedAppend(a: seq<Write>, b: seq<Write>, r: nat)
    requires Ordered(a) && Ordered(b)
    requires forall w :: w in a ==> Rank(w) < r
    requires forall w :: w in b ==> Rank(w) >= r
    ensures Ordered(a + b)
  {
    forall j, k | 0 <= j < k < |a + b|
      ensures Rank((a + b)[j]) < Rank((a + b)[k])
    {
      if k < |a| {
      } else if j < |a| {
        assert (a + b)[j] in a;
        assert (a + b)[k] == b[k - |a|];
        assert (a + b)[k] in b;
      } else {
        assert (a + b)[j] == b[j - |a|] && (a + b)[k] == b[k - |a|];
      }
    }
  }

  /** The calls come in the fixed order P, I, D, IZone, FF, output range,
      each at most once. */
  lemma ReconcileOrdered(cache: Gains, shown: Gains)
    ensures Ordered(Reconcile(cache, shown))
  {
    var a := When(shown.p != cache.p, SetP(shown.p));
    var b := When(shown.i != cache.i, SetI(shown.i));
    var c := When(shown.d != cache.d, SetD(shown.d));
    var d := When(shown.iZone != cache.iZone, SetIZone(shown.iZone));
    var e := When(shown.feedForward != cache.feedForward, SetFF(shown.feedForward));
    var f := When(shown.minOutput != cache.minOutput || shown.maxOutput != cache.maxOutput,
                  SetOutputRange(shown.minOutput, shown.maxOutput));
    OrderedAppend(a, b, 1);
    OrderedAppend(a + b, c, 2);
    OrderedAppend(a + b + c, d, 3);
    OrderedAppend(a + b + c + d, e, 4);
    OrderedAppend(a + b + c + d + e, f, 5);
  }

  /** The store after the three readings are published. */
  function Publish(keys: Keys, table: Table, r: Reading): Table {
    table[keys.position := Number(r.position)]
         [keys.velocity := Number(r.velocity)]
         [keys.inverted := Boolean(r.inverted)]
  }

  /** One updateDashboard call: publish, then (with a controller) sync the gains. */
  function Update(keys: Keys, cache: Gains, hasController: bool, table: Table, r: Reading): (e: Effect)
    // without a PID controller nothing is written
    ensures !hasController ==> e.writes == []
  {
    var published := Publish(keys, table, r);
    Effect(published, if hasController then SyncWrites(keys, cache, published) else [])
  }

  /** The readings are always published, each under its own key. */
  lemma PublishShowsReadings(keys: Keys, table: Table, r: Reading)
    requires Distinct(keys)
    ensures NumberOr(Publish(keys, table, r), keys.position, 0.0) == r.position
    ensures NumberOr(Publish(keys, table, r), keys.velocity, 0.0) == r.velocity
    ensures Publish(keys, table, r)[keys.inverted] == Boolean(r.inverted)
  {
    assert KeyList(keys)[0] != KeyList(keys)[1] && KeyList(keys)[0] != KeyList(keys)[2];
    assert KeyList(keys)[1] != KeyList(keys)[2];
  }

  /** Publishing readings never disturbs the gains the dashboard shows. */
  lemma PublishKeepsShownGains(keys: Keys, cache: Gains, table: Table, r: Reading)
    requires Distinct(keys)
    ensures Shown(keys, cache, Publish(keys, table, r)) == Shown(keys, cache, table)
  {
    var ks := KeyList(keys);
    assert ks[3] == keys.pGain && ks[4] == keys.iGain && ks[5] == keys.dGain && ks[6] == keys.iZone;
    assert ks[7] == keys.feedForward && ks[8] == keys.minOutput && ks[9] == keys.maxOutput;
    forall j | 3 <= j < 10
      ensures ks[j] != keys.position && ks[j] != keys.velocity && ks[j] != keys.inverted
    {
      assert ks[0] != ks[j] && ks[1] != ks[j] && ks[2] != ks[j];
    }
  }

  /** A gain whose key holds no number in the store is read as its cached
      value: its setter is not called and the controller keeps the cached
      value. With neither bound stored as a number the range is not written. */
  lemma NoEntryKeepsGain(keys: Keys, cache: Gains, table: Table)
    ensures !HoldsNumber(table, keys.pGain) ==>
              Apply(cache, SyncWrites(keys, cache, table)).p == cache.p &&
              forall w :: w in SyncWrites(keys, cache, table) ==> !w.SetP?
    ensures !HoldsNumber(table, keys.iGain) ==>
              Apply(cache, SyncWrites(keys, cache, table)).i == cache.i &&
              forall w :: w in SyncWrites(keys, cache, table) ==> !w.SetI?
    ensures !HoldsNumber(table, keys.dGain) ==>
              Apply(cache, SyncWrites(keys, cache, table)).d == cache.d &&
              forall w :: w in SyncWrites(keys, cache, table) ==> !w.SetD?
    ensures !HoldsNumber(table, keys.iZone) ==>
              Apply(cache, SyncWrites(keys, cache, table)).iZone == cache.iZone &&
              forall w :: w in SyncWrites(keys, cache, table) ==> !w.SetIZone?
    ensures !HoldsNumber(table, keys.feedForward) ==>
              Apply(cache, SyncWrites(keys, cache, table)).feedForward == cache.feedForward &&
              forall w :: w in SyncWrites(keys, cache, table) ==> !w.SetFF?
    ensures !HoldsNumber(table, keys.minOutput) && !HoldsNumber(table, keys.maxOutput) ==>
              Apply(cache, SyncWrites(keys, cache, table)).minOutput == cache.minOutput &&
              Apply(cache, SyncWrites(keys, cache, table)).maxOutput == cache.maxOutput &&
              forall w :: w in SyncWrites(keys, cache, table) ==> !w.SetOutputRange?
  {
    ReconcileWritesThrough(cache, Shown(keys, cache, table));
  }

  /** Successive updateDashboard calls with the given readings. */
  function Run(keys: Keys, cache: Gains, hasController: bool, table: Table, readings: seq<Reading>): Effect
    decreases |readings|
  {
    if readings == [] then
      Effect(table, [])
    else
      var first := Update(keys, cache, hasController, table, readings[0]);
      var rest := Run(keys, cache, hasController, first.table, readings[1..]);
      Effect(rest.table, first.writes + rest.writes)
  }

  /** ws, n times over. */
  function Repeat(ws: seq<Write>, n: nat): (r: seq<Write>)
    ensures |r| == n * |ws|
  {
    if n == 0 then [] else ws + Repeat(ws, n - 1)
  }

  /** The cache is never refreshed, so a dashboard edit that stays in the
      store is written again on every call: n calls make the same writes n times. */
  lemma {:induction false} EditRewrittenEveryCall(keys: Keys, cache: Gains, table: Table, readings: seq<Reading>)
    requires Distinct(keys)
    ensures Run(keys, cache, true, table, readings).writes
            == Repeat(SyncWrites(keys, cache, table), |readings|)
    decreases |readings|
  {
    if readings != [] {
      var first := Update(keys, cache, true, table, readings[0]);
      UpdateWrites(keys, cache, table, readings[0]);
      EditRewrittenEveryCall(keys, cache, first.table, readings[1..]);
      var rest := Run(keys, cache, true, first.table, readings[1..]);
      assert Run(keys, cache, true, table, readings).writes == first.writes + rest.writes;
      assert Repeat(first.writes, |readings|) == first.writes + Repeat(first.writes, |readings| - 1);
    }
  }

  /** With a controller, one call writes what the gains shown before the call
      call for, and leaves them shown. */
  lemma UpdateWrites(keys: Keys, cache: Gains, table: Table, r: Reading)
    requires Distinct(keys)
    ensures Update(keys, cache, true, table, r).writes == SyncWrites(keys, cache, table)
    ensures SyncWrites(keys, cache, Update(keys, cache, true, table, r).table) == SyncWrites(keys, cache, table)
  {
    PublishKeepsShownGains(keys, cache, table, r);
  }

  /** The sync is not idempotent: after an edit the second call repeats the
      first call's writes instead of making none. */
  lemma PersistingEditNotIdempotent(keys: Keys, cache: Gains, table: Table, r1: Reading, r2: Reading)
    requires Distinct(keys)
    requires Shown(keys, cache, table) != cache
    ensures Update(keys, cache, true, table, r1).writes != []
    ensures Update(keys, cache, true, Update(keys, cache, true, table, r1).table, r2).writes
            == Update(keys, cache, true, table, r1).writes
  {
    var t1 := Publish(keys, table, r1);
    var t2 := Publish(keys, t1, r2);
    PublishKeepsShownGains(keys, cache, table, r1);
    PublishKeepsShownGains(keys, cache, t1, r2);
    assert Update(keys, cache, true, table, r1) == Effect(t1, SyncWrites(keys, cache, t1));
    assert Update(keys, cache, true, t1, r2) == Effect(t2, SyncWrites(keys, cache, t2));
    ReconcileOnlyOnChange(cache, Shown(keys, cache, table));
  }

  /** Without a PID controller no call ever writes. */
  lemma {:induction false} NoControllerNeverWrites(keys: Keys, cache: Gains, table: Table, readings: seq<Reading>)
    ensures Run(keys, cache, false, table, readings).writes == []
    decreases |readings|
  {
    if readings != [] {
      NoControllerNeverWrites(keys, cache, Update(keys, cache, false, table, readings[0]).table, readings[1..]);
    }
  }

  /** The motor's hardware PID controller, seen as the log of setter calls it received. */
  class PidController {
    var writes: seq<Write>

    constructor ()
      ensures writes == []
    {
      writes := [];
    }

    method SetP(value: real)
      modifies this
      ensures writes == old(writes) + [Write.SetP(value)]
    {
      writes := writes + [Write.SetP(value)];
    }

    method SetI(value: real)
      modifies this
      ensures writes == old(writes) + [Write.SetI(value)]
    {
      writes := writes + [Write.SetI(value)];
    }

    method SetD(value: real)
      modifies this
      ensures writes == old(writes) + [Write.SetD(value)]
    {
      writes := writes + [Write.SetD(value)];
    }

    method SetIZone(value: real)
      modifies this
      ensures writes == old(writes) + [Write.SetIZone(value)]
    {
      writes := writes + [Write.SetIZone(value)];
    }

    method SetFF(value: real)
      modifies this
      ensures writes == old(writes) + [Write.SetFF(value)]
    {
      writes := writes + [Write.SetFF(value)];
    }

    method SetOutputRange(min: real, max: real)
      modifies this
      ensures writes == old(writes) + [Write.SetOutputRange(min, max)]
    {
      writes := writes + [Write.SetOutputRange(min, max)];
    }
  }

  class MotorDashboardUpdater {
    const positionKey: string
    const velocityKey: string
    const invertedKey: string
    const pGainKey: string
    const iGainKey: string
    const dGainKey: string
    const iZoneKey: string
    const feedForwardKey: string
    const minOutputKey: string
    const maxOutputKey: string

    /** null when the motor was configured without PID values. */
    const controller: PidController?

    var pGainCurrent: real
    var iGainCurrent: real
    var dGainCurrent: real
    var iZoneCurrent: real
    var feedForwardCurrent: real
    var minOutputCurrent: real
    var maxOutputCurrent: real

    /** The keys, as one value. */
    function KeysNow(): Keys
      reads this
    {
      Keys(positionKey, velocityKey, invertedKey, pGainKey, iGainKey, dGainKey, iZoneKey,
           feedForwardKey, minOutputKey, maxOutputKey)
    }

    /** The cached gains. */
    function Cached(): Gains
      reads this
    {
      Gains(pGainCurrent, iGainCurrent, dGainCurrent, iZoneCurrent, feedForwardCurrent,
            minOutputCurrent, maxOutputCurrent)
    }

    /** Builds the keys; caches the PID values and keeps the motor's PID
        controller when there are any, and otherwise keeps no controller and
        leaves the cache at Java's default 0.0. */
    constructor (name: string, pidController: PidController, pidValues: Option<Gains>)
      ensures KeysNow() == KeysFor(name)
      ensures controller == (if pidValues.Some? then pidController else null)
      ensures Cached() == (if pidValues.Some? then pidValues.value
                           else Gains(0.0, 0.0, 0.0, 0.0, 0.0, 0.0, 0.0))
    {
      positionKey := name + " Position";
      velocityKey := name + " Rotation";
      invertedKey := name + " Inverted?";
      pGainKey := name + " P Gain";
      iGainKey := name + " I Gain";
      dGainKey := name + " D Gain";
      iZoneKey := name + " I Zone";
      feedForwardKey := name + " Feed Forward";
      minOutputKey := name + " Min Output";
      maxOutputKey := name + " Max Output";
      if pidValues.Some? {
        var g := pidValues.value;
        pGainCurrent := g.p;
        iGainCurrent := g.i;
        dGainCurrent := g.d;
        iZoneCurrent := g.iZone;
        feedForwardCurrent := g.feedForward;
        minOutputCurrent := g.minOutput;
        maxOutputCurrent := g.maxOutput;
        controller := pidController;
      } else {
        pGainCurrent, iGainCurrent, dGainCurrent, iZoneCurrent := 0.0, 0.0, 0.0, 0.0;
        feedForwardCurrent, minOutputCurrent, maxOutputCurrent := 0.0, 0.0, 0.0;
        controller := null;
      }
    }

    /** Publishes reading, then writes every gain edited on the dashboard
        through to the controller. The cache itself is left as it was. */
    method UpdateDashboard(dashboard: Dashboard, reading: Reading)
      modifies dashboard, controller
      ensures dashboard.entries == Publish(KeysNow(), old(dashboard.entries), reading)
      ensures controller != null ==>
                controller.writes == old(controller.writes) + SyncWrites(KeysNow(), Cached(), dashboard.entries)
      ensures Cached() == old(Cached())
    {
      dashboard.PutNumber(positionKey, reading.position);
      dashboard.PutNumber(velocityKey, reading.velocity);
      dashboard.PutBoolean(invertedKey, reading.inverted);

      if controller != null {
        SyncGains(dashboard);
      }
    }

    /** Reads every gain from the dashboard, defaulting to the cache, and
        calls the controller's setter for each one that differs exactly. */
    method SyncGains(dashboard: Dashboard)
      requires controller != null
      modifies controller
      ensures controller.writes == old(controller.writes) + SyncWrites(KeysNow(), Cached(), dashboard.entries)
    {
      ghost var shown := Shown(KeysNow(), Cached(), dashboard.entries);
      ghost var w0 := controller.writes;

      var pGainNew := dashboard.GetNumber(pGainKey, pGainCurrent);
      WriteIf(pGainNew != pGainCurrent, SetP(pGainNew));
      ghost var w1 := controller.writes;

      var iGainNew := dashboard.GetNumber(iGainKey, iGainCurrent);
      WriteIf(iGainNew != iGainCurrent, SetI(iGainNew));
      ghost var w2 := controller.writes;

      var dGainNew := dashboard.GetNumber(dGainKey, dGainCurrent);
      WriteIf(dGainNew != dGainCurrent, SetD(dGainNew));
      ghost var w3 := controller.writes;

      var iZoneNew := dashboard.GetNumber(iZoneKey, iZoneCurrent);
      WriteIf(iZoneNew != iZoneCurrent, SetIZone(iZoneNew));
      ghost var w4 := controller.writes;

      var feedForwardNew := dashboard.GetNumber(feedForwardKey, feedForwardCurrent);
      WriteIf(feedForwardNew != feedForwardCurrent, SetFF(feedForwardNew));
      ghost var w5 := controller.writes;

      var minOutputNew := dashboard.GetNumber(minOutputKey, minOutputCurrent);
      var maxOutputNew := dashboard.GetNumber(maxOutputKey, maxOutputCurrent);
      WriteIf(minOutputNew != minOutputCurrent || maxOutputNew != maxOutputCurrent,
              SetOutputRange(minOutputNew, maxOutputNew));

      AppendSix(w0, w1, w2, w3, w4, w5, controller.writes, Reconcile(Cached(), shown),
        When(shown.p != pGainCurrent, SetP(shown.p)),
        When(shown.i != iGainCurrent, SetI(shown.i)),
        When(shown.d != dGainCurrent, SetD(shown.d)),
        When(shown.iZone != iZoneCurrent, SetIZone(shown.iZone)),
        When(shown.feedForward != feedForwardCurrent, SetFF(shown.feedForward)),
        When(shown.minOutput != minOutputCurrent || shown.maxOutput != maxOutputCurrent,
             SetOutputRange(shown.minOutput, shown.maxOutput)));
    }

    /** Makes the setter call w on the controller when changed holds. */
    method WriteIf(changed: bool, w: Write)
      requires controller != null
      modifies controller
      ensures controller.writes == old(controller.writes) + When(changed, w)
    {
      if changed {
        match w
        case SetP(v) => controller.SetP(v);
        case SetI(v) => controller.SetI(v);
        case SetD(v) => controller.SetD(v);
        case SetIZone(v) => controller.SetIZone(v);
        case SetFF(v) => controller.SetFF(v);
        case SetOutputRange(lo, hi) => controller.SetOutputRange(lo, hi);
      }
    }
  }
}
