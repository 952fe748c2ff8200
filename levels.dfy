/**
 * The level registry (`LOGLEVELS`), the colour table (`colorlvl`), and the
 * two pure decisions `Alert` makes before writing anything: how an empty level
 * name is resolved and whether the configured threshold lets a level through.
 */
module Levels {
  import opened Wrappers

  const NOTSET: int := 0
  const ERROR: int := 1
  const WARN: int := 2
  const INFO: int := 3
  const DEBUG: int := 4
  const TRACE: int := 5
  const SKIP: int := 99

  /** `LOGLEVELS`: the closed set of level names and their ranks. */
  const LogLevels: map<string, int> := map[
    "notset" := NOTSET,
    "error" := ERROR,
    "warn" := WARN,
    "info" := INFO,
    "debug" := DEBUG,
    "trace" := TRACE,
    "skip" := SKIP
  ]

  /** The registry's names, from least to most verbose. */
  const Ordered: seq<string> := ["notset", "error", "warn", "info", "debug", "trace", "skip"]

  /** The style constants of the external colour package, left uninterpreted. */
  datatype Palette = Palette(red: string, brown: string, green: string, cyan: string,
                             blue: string, bold: string, reset: string)

  /** `colorlvl[name]`; a Go map miss ("notset", "skip", unknown names) yields "". */
  function ColorOf(p: Palette, name: string): (c: string)
    ensures c != "" ==> name in LogLevels && name != "notset" && name != "skip"
  {
    match name
    case "error" => p.red
    case "warn" => p.brown
    case "info" => p.green
    case "debug" => p.cyan
    case "trace" => p.blue
    case _ => ""
  }

  /** `LOGLEVELS[name]`, where a Go map miss yields 0, the rank of "notset". */
  function Rank(name: string): (r: int)
    ensures NOTSET <= r <= SKIP
    ensures r == NOTSET <==> name == "notset" || name !in LogLevels
    ensures name in LogLevels ==> r == LogLevels[name]
  {
    if name in LogLevels then LogLevels[name] else 0
  }

  /** The level `Alert` uses: an empty name becomes "error" when an error is
      given and "info" otherwise; any other name is kept as it is. */
  function ResolveLevel(err: Option<string>, level: string): (r: string)
    ensures level != "" ==> r == level
    ensures level == "" ==> r in LogLevels && r != "notset"
    ensures level == "" ==> (r == "error" <==> err.Some?) && (r == "info" <==> err.None?)
  {
    if level == "" then (if err.Some? then "error" else "info") else level
  }

  /** The gate of `Alert`: the threshold's rank is at least the level's. */
  predicate Admits(threshold: string, level: string)
    ensures Admits(threshold, level) <==>
              level == "notset" || level !in LogLevels
              || (threshold in LogLevels && LogLevels[threshold] >= LogLevels[level])
  {
    Rank(threshold) >= Rank(level)
  }

  /** `Ordered` lists exactly the registered names, each once. */
  lemma OrderedIsRegistry()
    ensures forall n :: n in LogLevels <==> n in Ordered
    ensures forall i, j :: 0 <= i < j < |Ordered| ==> Ordered[i] != Ordered[j]
  {
  }

  /** Ranks strictly increase along `Ordered`:
      notset(0) < error(1) < warn(2) < info(3) < debug(4) < trace(5) < skip(99). */
  lemma RanksStrictlyIncrease(i: int, j: int)
    requires 0 <= i < j < |Ordered|
    ensures Rank(Ordered[i]) < Rank(Ordered[j])
  {
  }

  /** Between registered names the gate is the order of `Ordered`: a level
      passes exactly when it comes no later than the threshold. */
  lemma AdmitsFollowsOrder(i: int, j: int)
    requires 0 <= i < |Ordered| && 0 <= j < |Ordered|
    ensures Admits(Ordered[i], Ordered[j]) <==> j <= i
  {
    if j <= i {
      if j < i { RanksStrictlyIncrease(j, i); }
    } else {
      RanksStrictlyIncrease(i, j);
    }
  }

  /** A "skip" threshold lets every level through, unknown names included. */
  lemma SkipAdmitsAll(level: string)
    ensures Admits("skip", level)
  {
  }

  /** A "notset" message passes every threshold, since no rank is below 0. */
  lemma NotsetAlwaysAdmitted(threshold: string)
    ensures Admits(threshold, "notset")
  {
  }

  /** A "notset" threshold lets through only "notset" and names the registry
      does not know (which rank 0 by the map miss). */
  lemma NotsetAdmitsOnlyNotset(level: string)
    ensures Admits("notset", level) <==> level == "notset" || level !in LogLevels
  {
  }

  /** An unknown threshold name behaves exactly like "notset". */
  lemma UnknownThresholdIsNotset(threshold: string, level: string)
    requires threshold !in LogLevels
    ensures Admits(threshold, level) <==> Admits("notset", level)
  {
  }

  /** Raising the threshold never blocks a level that passed before. */
  lemma AdmitsMonotone(t1: string, t2: string, level: string)
    requires Rank(t1) <= Rank(t2) && Admits(t1, level)
    ensures Admits(t2, level)
  {
  }

  /** The colour table has no entry for the two sentinel levels. */
  lemma SentinelsUncoloured(p: Palette)
    ensures ColorOf(p, "notset") == "" && ColorOf(p, "skip") == ""
  {
  }
}
