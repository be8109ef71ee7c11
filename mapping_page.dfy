/** The mapping generator page (src/src/pages/Mapping.js): the selected NAMASTE
    code, the guards of its two queries, and the bounded history of generated
    mappings, newest first. */
module MappingPage {
  import opened Util
  import opened MappingResultsView

  /** How many generated mappings the history keeps. */
  const HistoryLimit: nat := 5

  /** One history item: the code, the mappings generated for it and when. */
  datatype HistoryEntry = HistoryEntry(code: string, mappings: seq<Mapping>, timestamp: int)

  function Min(a: int, b: int): int
  {
    if a <= b then a else b
  }

  /** `prev => [entry, ...prev.slice(0, 4)]` */
  function PushHistory(prev: seq<HistoryEntry>, entry: HistoryEntry): (h: seq<HistoryEntry>)
    ensures |h| == Min(|prev| + 1, HistoryLimit)
    ensures h[0] == entry
    ensures h[1..] == prev[..Min(|prev|, HistoryLimit - 1)]
  {
    [entry] + prev[..Min(|prev|, HistoryLimit - 1)]
  }

  /** The history after a run of successful generations, applied oldest first. */
  function Replay(entries: seq<HistoryEntry>): seq<HistoryEntry>
  {
    if |entries| == 0 then []
    else PushHistory(Replay(entries[..|entries| - 1]), entries[|entries| - 1])
  }

  /** The last `n` items of `s`, newest first. */
  function NewestFirst<T>(s: seq<T>, n: nat): (r: seq<T>)
    ensures |r| == Min(|s|, n)
    ensures forall i :: 0 <= i < |r| ==> r[i] == s[|s| - 1 - i]
  {
    if |s| == 0 || n == 0 then []
    else [s[|s| - 1]] + NewestFirst(s[..|s| - 1], n - 1)
  }

  /** After any run of successes the history holds the five most recent ones, newest
      first: it never grows beyond five entries and never reorders them. */
  lemma {:induction false} ReplayIsNewestFive(entries: seq<HistoryEntry>)
    ensures Replay(entries) == NewestFirst(entries, HistoryLimit)
    decreases |entries|
  {
    if |entries| > 0 {
      var init := entries[..|entries| - 1];
      ReplayIsNewestFive(init);
      var h, r := Replay(entries), NewestFirst(entries, HistoryLimit);
      assert |h| == |r|;
      forall i | 0 <= i < |h| ensures h[i] == r[i] {
        if i > 0 {
          assert h[i] == h[1..][i - 1];
        }
      }
    }
  }

  /** `mappings` as the query holds it: nothing yet, an envelope whose `data` field
      may be missing, or a bare list. */
  datatype QueryData = Undefined | Envelope(data: Option<seq<Mapping>>) | Bare(items: seq<Mapping>)

  /** `mappings?.data || mappings || []`, where an undefined query result has already
      defaulted to `[]`. An envelope without `data` is itself truthy, so the page
      receives the envelope and no list: `None`. */
  function ResultsOf(q: QueryData): (r: Option<seq<Mapping>>)
    ensures q.Envelope? && q.data.Some? ==> r == q.data
    ensures q.Bare? ==> r == Some(q.items)
    ensures q.Undefined? ==> r == Some([])
    ensures r.None? <==> q == Envelope(None)
  {
    match q
    case Undefined => Some([])
    case Envelope(d) => if d.Some? then d else None
    case Bare(items) => Some(items)
  }

  /** The page's state: the selected code and the history list. */
  class MappingView {
    var selectedCode: string
    var history: seq<HistoryEntry>

    ghost predicate Valid()
      reads this
    {
      |history| <= HistoryLimit
    }

    /** `useState(searchParams.get('code') || '')` and an empty history. */
    constructor (codeParam: Option<string>)
      ensures Valid()
      ensures selectedCode == (if codeParam.Some? then codeParam.value else "")
      ensures history == []
    {
      selectedCode := if codeParam.Some? then codeParam.value else "";
      history := [];
    }

    /** `enabled: !!selectedCode`, shared by the mapping and the dual-coding query. */
    function QueriesEnabled(): (r: bool)
      reads this
      ensures r <==> |selectedCode| > 0
    {
      selectedCode != ""
    }

    /** `handleCodeSelect` (the address-bar update is not modelled). */
    method SelectCode(code: string)
      requires Valid()
      modifies this
      ensures Valid()
      ensures selectedCode == code && history == old(history)
      ensures QueriesEnabled() <==> code != ""
    {
      selectedCode := code;
    }

    /** The mapping query's `onSuccess`: `payload` is `data?.data`, `None` when it is
        missing. With a payload and a selected code the new entry is prepended and
        the list capped; otherwise nothing changes. */
    method OnSuccess(payload: Option<seq<Mapping>>, now: int)
      requires Valid()
      modifies this
      ensures Valid()
      ensures selectedCode == old(selectedCode)
      ensures payload.Some? && old(selectedCode) != "" ==>
                history == PushHistory(old(history), HistoryEntry(old(selectedCode), payload.value, now))
      ensures payload.None? || old(selectedCode) == "" ==> history == old(history)
      ensures |history| <= HistoryLimit
    {
      if payload.Some? && selectedCode != "" {
        history := PushHistory(history, HistoryEntry(selectedCode, payload.value, now));
      }
    }

    /** `handleGenerateMapping`: whether it asks for a refetch. */
    method HandleGenerateMapping() returns (refetch: bool)
      ensures refetch <==> QueriesEnabled()
    {
      refetch := selectedCode != "";
    }
  }
}
