/** The usage ledger of jc/usage_logger.py.

    usage.log is a sequence of lines, each written as one JSON object by
    `log` and read back by `summary`. A line is modelled by what `summary`
    makes of it: blank, not JSON, JSON that is not an object, or a record whose
    absent fields read as None. Timestamps are whole seconds; a record's `at`
    is None when it is missing or does not parse as an ISO time. The clock is
    a parameter. */
module UsageLogger {
  import opened Wrappers
  import opened Text

  const SecondsPerDay := 86400

  /** The fields of one usage line. */
  datatype UsageEntry = UsageEntry(
    at: Option<int>,
    keyId: Option<string>,
    name: Option<string>,
    provider: Option<string>,
    operation: Option<string>,
    tokens: Option<int>,
    estimatedCostUsd: Option<real>,
    meta: Option<string>)

  datatype Line =
    | Blank                      // empty or whitespace only: skipped
    | Unparseable                // not JSON: skipped
    | NotAnObject                // JSON but not an object: `data.get` raises AttributeError
    | Record(entry: UsageEntry)

  datatype SummaryError = MalformedLine

  /** The dictionary `summary` returns. */
  datatype Summary = Summary(keyId: string, days: int, totalTokens: int, totalEstimatedUsd: real,
                             entries: seq<UsageEntry>)

  /** `now - timedelta(days=max(days, 0))`, in seconds. */
  function Cutoff(now: int, days: int): int {
    now - (if days > 0 then days else 0) * SecondsPerDay
  }

  /** A line `summary` keeps: a record for the key whose time, if it parses,
      is not before the cutoff. */
  predicate Counted(line: Line, keyId: string, cutoff: int) {
    line.Record? && line.entry.keyId == Some(keyId) &&
    !(line.entry.at.Some? && line.entry.at.value < cutoff)
  }

  /** The records `summary` keeps, in file order. */
  function Filtered(lines: seq<Line>, keyId: string, cutoff: int): (r: seq<UsageEntry>)
    ensures |r| <= |lines|
  {
    if lines == [] then []
    else
      var last := lines[|lines| - 1];
      Filtered(lines[..|lines| - 1], keyId, cutoff) + (if Counted(last, keyId, cutoff) then [last.entry] else [])
  }

  /** Python truthiness of an optional number: present and non-zero. */
  predicate TruthyInt(n: Option<int>) {
    n.Some? && n.value != 0
  }

  predicate TruthyReal(x: Option<real>) {
    x.Some? && x.value != 0.0
  }

  /** The sum of the truthy `tokens` fields. */
  function TokenSum(entries: seq<UsageEntry>): int {
    if entries == [] then 0
    else
      var last := entries[|entries| - 1];
      TokenSum(entries[..|entries| - 1]) + (if TruthyInt(last.tokens) then last.tokens.value else 0)
  }

  /** The sum of the truthy `estimated_cost_usd` fields (before rounding). */
  function CostSum(entries: seq<UsageEntry>): real {
    if entries == [] then 0.0
    else
      var last := entries[|entries| - 1];
      CostSum(entries[..|entries| - 1]) + (if TruthyReal(last.estimatedCostUsd) then last.estimatedCostUsd.value else 0.0)
  }

  /** Some line would make `summary` raise. */
  predicate HasMalformed(lines: seq<Line>) {
    exists i :: 0 <= i < |lines| && lines[i].NotAnObject?
  }

  /** `summary(key_id, days, max_entries)` at time `now`. */
  function SummarySpec(lines: seq<Line>, keyId: string, days: int, maxEntries: int, now: int): (r: Result<Summary, SummaryError>)
    ensures r.Err? <==> HasMalformed(lines)
    ensures r.Ok? ==> r.value.keyId == keyId && r.value.days == days
    ensures r.Ok? ==> r.value.totalTokens == TokenSum(Filtered(lines, keyId, Cutoff(now, days)))
    ensures r.Ok? && maxEntries <= 0 ==> r.value.entries == []
    ensures r.Ok? && maxEntries > 0 ==>
              r.value.entries == Suffix(Filtered(lines, keyId, Cutoff(now, days)), maxEntries)
  {
    if HasMalformed(lines) then Err(MalformedLine)
    else
      var kept := Filtered(lines, keyId, Cutoff(now, days));
      Ok(Summary(keyId, days, TokenSum(kept), CostSum(kept), if maxEntries > 0 then Suffix(kept, maxEntries) else []))
  }

  // ---------------------------------------------------------------------------
  // Properties
  // ---------------------------------------------------------------------------

  /** One more line adds its record to the kept ones exactly when it counts. */
  lemma FilteredAppend(lines: seq<Line>, line: Line, keyId: string, cutoff: int)
    ensures Filtered(lines + [line], keyId, cutoff)
            == Filtered(lines, keyId, cutoff) + (if Counted(line, keyId, cutoff) then [line.entry] else [])
  {
    assert (lines + [line])[..|lines|] == lines;
  }

  lemma TokenSumAppend(entries: seq<UsageEntry>, e: UsageEntry)
    ensures TokenSum(entries + [e]) == TokenSum(entries) + (if TruthyInt(e.tokens) then e.tokens.value else 0)
  {
    assert (entries + [e])[..|entries|] == entries;
  }

  lemma CostSumAppend(entries: seq<UsageEntry>, e: UsageEntry)
    ensures CostSum(entries + [e]) == CostSum(entries) + (if TruthyReal(e.estimatedCostUsd) then e.estimatedCostUsd.value else 0.0)
  {
    assert (entries + [e])[..|entries|] == entries;
  }

  /** Every kept record is for the key, and is undated or not older than the cutoff. */
  lemma {:induction false} FilteredOnlyMatching(lines: seq<Line>, keyId: string, cutoff: int)
    ensures forall e :: e in Filtered(lines, keyId, cutoff) ==>
              e.keyId == Some(keyId) && (e.at.None? || e.at.value >= cutoff)
  {
    if lines != [] {
      FilteredOnlyMatching(lines[..|lines| - 1], keyId, cutoff);
    }
  }

  /** A record for the key is kept exactly when it is undated or not older than the cutoff. */
  lemma {:induction false} FilteredKeepsEveryRecent(lines: seq<Line>, keyId: string, cutoff: int, i: nat)
    requires i < |lines| && lines[i].Record? && lines[i].entry.keyId == Some(keyId)
    requires lines[i].entry.at.None? || lines[i].entry.at.value >= cutoff
    ensures lines[i].entry in Filtered(lines, keyId, cutoff)
  {
    if i < |lines| - 1 {
      FilteredKeepsEveryRecent(lines[..|lines| - 1], keyId, cutoff, i);
    }
  }

  /** A non-positive `days` puts the cutoff at `now`: it is not "no time floor". */
  lemma NonPositiveDaysCutsAtNow(lines: seq<Line>, keyId: string, days: int, maxEntries: int, now: int, e: UsageEntry)
    requires days <= 0 && !HasMalformed(lines)
    requires e.keyId == Some(keyId) && e.at.Some? && e.at.value < now
    ensures Cutoff(now, days) == now
    ensures e !in Filtered(lines, keyId, Cutoff(now, days))
    ensures SummarySpec(lines + [Record(e)], keyId, days, maxEntries, now) == SummarySpec(lines, keyId, days, maxEntries, now)
  {
    FilteredOnlyMatching(lines, keyId, now);
    UncountedLineChangesNothing(lines, Record(e), keyId, days, maxEntries, now);
  }

  /** Appending a line that does not count and is not malformed leaves the
      summary as it was: other keys' records, blank and unparseable lines,
      and records older than the cutoff change nothing. */
  lemma UncountedLineChangesNothing(lines: seq<Line>, line: Line, keyId: string, days: int, maxEntries: int, now: int)
    requires !line.NotAnObject? && !Counted(line, keyId, Cutoff(now, days))
    ensures SummarySpec(lines + [line], keyId, days, maxEntries, now) == SummarySpec(lines, keyId, days, maxEntries, now)
  {
    FilteredAppend(lines, line, keyId, Cutoff(now, days));
    assert HasMalformed(lines + [line]) <==> HasMalformed(lines) by {
      if HasMalformed(lines) {
        var i :| 0 <= i < |lines| && lines[i].NotAnObject?;
        assert (lines + [line])[i] == lines[i];
      }
      if HasMalformed(lines + [line]) {
        var i :| 0 <= i < |lines| + 1 && (lines + [line])[i].NotAnObject?;
        assert i < |lines| && lines[i] == (lines + [line])[i];
      }
    }
    var c := Cutoff(now, days);
    assert Filtered(lines + [line], keyId, c) == Filtered(lines, keyId, c);
  }

  /** A logged record that is not older than the cutoff becomes the newest
      entry of its key's summary, and its truthy tokens are added to the total. */
  lemma LogThenSummaryShowsEntry(lines: seq<Line>, e: UsageEntry, keyId: string, days: int, maxEntries: int, now: int)
    requires !HasMalformed(lines) && maxEntries > 0
    requires e.keyId == Some(keyId) && e.at.Some? && e.at.value >= Cutoff(now, days)
    ensures var after := SummarySpec(lines + [Record(e)], keyId, days, maxEntries, now);
            var before := SummarySpec(lines, keyId, days, maxEntries, now);
            after.Ok? && before.Ok? &&
            after.value.entries != [] && after.value.entries[|after.value.entries| - 1] == e &&
            after.value.totalTokens == before.value.totalTokens + (if TruthyInt(e.tokens) then e.tokens.value else 0)
  {
    var c := Cutoff(now, days);
    FilteredAppend(lines, Record(e), keyId, c);
    TokenSumAppend(Filtered(lines, keyId, c), e);
    assert !HasMalformed(lines + [Record(e)]) by {
      forall i | 0 <= i < |lines| + 1
        ensures !(lines + [Record(e)])[i].NotAnObject?
      {
        if i < |lines| {
          assert (lines + [Record(e)])[i] == lines[i];
        }
      }
    }
  }

  /** The token total is taken over every kept record, so it does not depend
      on how many entries are returned. */
  lemma TotalIgnoresMaxEntries(lines: seq<Line>, keyId: string, days: int, m1: int, m2: int, now: int)
    requires !HasMalformed(lines)
    ensures SummarySpec(lines, keyId, days, m1, now).value.totalTokens
            == SummarySpec(lines, keyId, days, m2, now).value.totalTokens
    ensures m1 >= |Filtered(lines, keyId, Cutoff(now, days))| ==>
              SummarySpec(lines, keyId, days, m1, now).value.entries == Filtered(lines, keyId, Cutoff(now, days))
  {
  }

  // ---------------------------------------------------------------------------
  // The ledger file
  // ---------------------------------------------------------------------------

  class UsageLedger {
    var lines: seq<Line>

    /** An empty usage.log. */
    constructor ()
      ensures lines == []
    {
      lines := [];
    }

    /** `UsageLogger.log`: appends exactly one record, stamped `now`, and
        leaves every earlier line as it was. */
    method Log(keyId: string, name: Option<string>, provider: Option<string>, operation: Option<string>,
               tokens: Option<int>, estimatedCostUsd: Option<real>, meta: Option<string>, now: int)
      modifies this
      ensures lines == old(lines) + [Record(UsageEntry(Some(now), Some(keyId), name, provider, operation,
                                                       tokens, estimatedCostUsd, meta))]
    {
      lines := lines + [Record(UsageEntry(Some(now), Some(keyId), name, provider, operation,
                                          tokens, estimatedCostUsd, meta))];
    }

    /** `UsageLogger.summary`: one pass over the lines, then the slice. */
    method Summarize(keyId: string, days: int, maxEntries: int, now: int) returns (r: Result<Summary, SummaryError>)
      ensures r == SummarySpec(lines, keyId, days, maxEntries, now)
    {
      var cutoff := Cutoff(now, days);
      var entries: seq<UsageEntry> := [];
      var totalTokens := 0;
      var totalEstimated := 0.0;
      var i := 0;
      while i < |lines|
        invariant 0 <= i <= |lines|
        invariant !HasMalformed(lines[..i])
        invariant entries == Filtered(lines[..i], keyId, cutoff)
        invariant totalTokens == TokenSum(entries) && totalEstimated == CostSum(entries)
      {
        var line := lines[i];
        assert lines[..i + 1] == lines[..i] + [line];
        FilteredAppend(lines[..i], line, keyId, cutoff);
        if line.NotAnObject? {
          assert lines[i].NotAnObject?;
          return Err(MalformedLine);
        }
        if line.Record? && line.entry.keyId == Some(keyId) {
          var data := line.entry;
          if !(data.at.Some? && data.at.value < cutoff) {
            TokenSumAppend(entries, data);
            CostSumAppend(entries, data);
            entries := entries + [data];
            if TruthyInt(data.tokens) {
              totalTokens := totalTokens + data.tokens.value;
            }
            if TruthyReal(data.estimatedCostUsd) {
              totalEstimated := totalEstimated + data.estimatedCostUsd.value;
            }
          }
        }
        assert !HasMalformed(lines[..i + 1]) by {
          forall k | 0 <= k < i + 1
            ensures !lines[k].NotAnObject?
          {
            if k < i {
              assert lines[..i][k] == lines[k];
            }
          }
        }
        i := i + 1;
      }
      assert lines[..i] == lines;
      if maxEntries > 0 {
        entries := Suffix(entries, maxEntries);
      } else {
        entries := [];
      }
      r := Ok(Summary(keyId, days, totalTokens, totalEstimated, entries));
    }
  }
}
