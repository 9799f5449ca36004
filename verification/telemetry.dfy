/** The telemetry store (SmartDashboard) as the motor code sees it: a table of
    named numbers and flags, and the key each motor publishes a field under. */
module Telemetry {

  datatype Entry = Number(value: real) | Boolean(flag: bool)

  type Table = map<string, Entry>

  /** getNumber(key, default): the number stored under key, or default when
      the key is absent or holds something other than a number. */
  function NumberOr(table: Table, key: string, default: real): real {
    if key in table && table[key].Number? then table[key].value else default
  }

  /** Whether key holds a number, rather than nothing or a flag. */
  predicate HoldsNumber(table: Table, key: string) {
    key in table && table[key].Number?
  }

  /** How getNumber sees the puts: a number put under a key reads back, a flag
      put there reads as the default, a put under another key changes nothing,
      and a key holding no number reads as the default. */
  lemma NumberOrReads(table: Table, key: string, other: string, v: real, flag: bool, default: real)
    ensures NumberOr(table[key := Number(v)], key, default) == v
    ensures NumberOr(table[key := Boolean(flag)], key, default) == default
    ensures other != key ==>
              NumberOr(table[other := Number(v)], key, default) == NumberOr(table, key, default)
    ensures HoldsNumber(table, key) ==> NumberOr(table, key, default) == table[key].value
    ensures !HoldsNumber(table, key) ==> NumberOr(table, key, default) == default
  {
  }

  /** The store itself; every motor writes to and reads from the same one. */
  class Dashboard {
    var entries: Table

    constructor ()
      ensures entries == map[]
    {
      entries := map[];
    }

    method PutNumber(key: string, value: real)
      modifies this
      ensures entries == old(entries)[key := Number(value)]
    {
      entries := entries[key := Number(value)];
    }

    method PutBoolean(key: string, flag: bool)
      modifies this
      ensures entries == old(entries)[key := Boolean(flag)]
    {
      entries := entries[key := Boolean(flag)];
    }

    method GetNumber(key: string, default: real) returns (r: real)
      ensures r == NumberOr(entries, key, default)
    {
      r := NumberOr(entries, key, default);
    }
  }

  /** The fields a motor publishes. The last two belong to position-controlled
      motors only. */
  datatype Field =
    | Position | Velocity | Inverted
    | PGain | IGain | DGain | IZone | FeedForward | MinOutput | MaxOutput
    | TargetPosition | TotalDelta

  /** The fixed suffix of each field's key ("Postion" is spelled as the
      dashboards know it). */
  function Suffix(f: Field): string {
    match f
    case Position => " Position"
    case Velocity => " Rotation"
    case Inverted => " Inverted?"
    case PGain => " P Gain"
    case IGain => " I Gain"
    case DGain => " D Gain"
    case IZone => " I Zone"
    case FeedForward => " Feed Forward"
    case MinOutput => " Min Output"
    case MaxOutput => " Max Output"
    case TargetPosition => " Target Postion"
    case TotalDelta => " Total Delta"
  }

  /** The key under which the motor called name publishes field f. */
  function Key(name: string, f: Field): string {
    name + Suffix(f)
  }

  /** No suffix is the tail of a different one. */
  lemma SuffixesDoNotNest(f1: Field, f2: Field)
    requires |Suffix(f1)| <= |Suffix(f2)|
    ensures Suffix(f2)[|Suffix(f2)| - |Suffix(f1)|..] == Suffix(f1) ==> f1 == f2
  {
  }

  /** Two splittings of one string: the shorter tail ends the longer one, and
      tails of equal length leave equal heads. */
  lemma SplitTails(n1: string, s1: string, n2: string, s2: string)
    requires n1 + s1 == n2 + s2 && |s1| <= |s2|
    ensures s2[|s2| - |s1|..] == s1
    ensures |s1| == |s2| ==> n1 == n2
  {
    var k := n1 + s1;
    assert k[|n1|..] == s1 && k[|n2|..] == s2;
    assert s2[|s2| - |s1|..] == k[|n1|..];
    assert k[..|n1|] == n1 && k[..|n2|] == n2;
  }

  /** A key names one motor and one field: two motors never share a key, and
      no two fields of one motor do. */
  lemma KeyInjective(n1: string, f1: Field, n2: string, f2: Field)
    requires Key(n1, f1) == Key(n2, f2)
    ensures n1 == n2 && f1 == f2
  {
    if |Suffix(f1)| <= |Suffix(f2)| {
      SplitTails(n1, Suffix(f1), n2, Suffix(f2));
      SuffixesDoNotNest(f1, f2);
    } else {
      SplitTails(n2, Suffix(f2), n1, Suffix(f1));
      SuffixesDoNotNest(f2, f1);
    }
  }
}
