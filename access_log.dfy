/** The patient data access log (src/src/components/patient/AccessLog.js): the
    search filter over doctor, role and purpose, the newest-first ordering, and the
    single expanded row. */
module AccessLog {
  import opened Util

  /** One access record. `accessTime` is the instant `new Date(accessTime)` parses
      the ISO text to, in milliseconds; `purpose` may be missing. */
  datatype LogEntry = LogEntry(id: int, doctorName: string, role: string, accessTime: int, purpose: Option<string>)

  /** The three demonstration records the page starts with. */
  const DemoLogs: seq<LogEntry> := [
    LogEntry(1, "Dr. Asha Kulkarni", "Cardiologist", 1758359100000, Some("Reviewed ECG and reports")),
    LogEntry(2, "Dr. Rohit Sharma", "General Physician", 1758253800000, Some("Routine follow-up")),
    LogEntry(3, "Dr. Priya Desai", "Dermatologist", 1758201600000, Some("Checked skin test results"))
  ]

  /** `l.purpose || ''` */
  function PurposeText(l: LogEntry): (t: string)
    ensures l.purpose.Some? ==> t == l.purpose.value
    ensures l.purpose.None? ==> t == ""
  {
    if l.purpose.Some? then l.purpose.value else ""
  }

  /** The filter's test: the lower-cased query occurs in the lower-cased doctor name,
      role or purpose. */
  function Matches(l: LogEntry, query: string): (r: bool)
    ensures query == "" ==> r
    ensures l.purpose.None? ==>
              (r <==> Contains(ToLower(l.doctorName), ToLower(query)) || Contains(ToLower(l.role), ToLower(query)))
  {
    var q := ToLower(query);
    assert query == "" ==> StartsWith(ToLower(l.doctorName), q);
    Contains(ToLower(l.doctorName), q) || Contains(ToLower(l.role), q) || Contains(ToLower(PurposeText(l)), q)
  }

  /** Newest first: access times never increase along the list. */
  predicate NewestFirst(s: seq<LogEntry>)
  {
    forall i, j :: 0 <= i < j < |s| ==> s[i].accessTime >= s[j].accessTime
  }

  /** `logs.filter(l => Matches(l, query))` */
  function Matching(logs: seq<LogEntry>, query: string): (r: seq<LogEntry>)
    ensures forall l :: multiset(r)[l] == if Matches(l, query) then multiset(logs)[l] else 0
  {
    if |logs| == 0 then []
    else
      var rest := Matching(logs[1..], query);
      assert logs == [logs[0]] + logs[1..];
      if Matches(logs[0], query) then [logs[0]] + rest else rest
  }

  /** One step of the stable sort by `(a, b) => b.accessTime - a.accessTime`: `x`,
      which came before every element of `s`, goes before the first one not newer
      than it. */
  function Insert(x: LogEntry, s: seq<LogEntry>): (r: seq<LogEntry>)
    ensures multiset(r) == multiset(s) + multiset{x}
    ensures |r| == |s| + 1
    ensures r[0] == x || (|s| > 0 && r[0] == s[0])
  {
    if |s| == 0 || s[0].accessTime <= x.accessTime then [x] + s
    else
      assert s == [s[0]] + s[1..];
      [s[0]] + Insert(x, s[1..])
  }

  /** Inserting into a newest-first list keeps it newest first. */
  lemma {:induction false} InsertKeepsOrder(x: LogEntry, s: seq<LogEntry>)
    requires NewestFirst(s)
    ensures NewestFirst(Insert(x, s))
    decreases |s|
  {
    if |s| == 0 || s[0].accessTime <= x.accessTime {
      NewestFirstCons(x, s);
    } else {
      var tail := s[1..];
      assert NewestFirst(tail) by {
        forall i, j | 0 <= i < j < |tail| ensures tail[i].accessTime >= tail[j].accessTime {
          assert tail[i] == s[i + 1] && tail[j] == s[j + 1];
        }
      }
      InsertKeepsOrder(x, tail);
      var rest := Insert(x, tail);
      assert s[0].accessTime >= rest[0].accessTime by {
        if rest[0] != x {
          assert rest[0] == s[1];
        }
      }
      NewestFirstCons(s[0], rest);
    }
  }

  lemma NewestFirstCons(x: LogEntry, s: seq<LogEntry>)
    requires NewestFirst(s) && (|s| > 0 ==> x.accessTime >= s[0].accessTime)
    ensures NewestFirst([x] + s)
  {
    var r := [x] + s;
    forall i, j | 0 <= i < j < |r| ensures r[i].accessTime >= r[j].accessTime {
      if i > 0 {
        assert r[i] == s[i - 1] && r[j] == s[j - 1];
      } else {
        assert r[j] == s[j - 1];
        if j > 1 {
          assert s[0].accessTime >= s[j - 1].accessTime;
        }
      }
    }
  }

  /** `slice().sort(...)`: a newest-first permutation of `s`. */
  function SortNewestFirst(s: seq<LogEntry>): (r: seq<LogEntry>)
    ensures multiset(r) == multiset(s)
    ensures NewestFirst(r)
  {
    if |s| == 0 then []
    else
      assert s == [s[0]] + s[1..];
      InsertKeepsOrder(s[0], SortNewestFirst(s[1..]));
      Insert(s[0], SortNewestFirst(s[1..]))
  }

  /** The `filtered` memo: everything when the query is empty, otherwise the matching
      entries; newest first either way. */
  function Filtered(logs: seq<LogEntry>, query: string): (r: seq<LogEntry>)
    ensures NewestFirst(r)
    ensures query == "" ==> multiset(r) == multiset(logs)
    ensures query != "" ==> multiset(r) == multiset(Matching(logs, query))
  {
    if query == "" then SortNewestFirst(logs)
    else SortNewestFirst(Matching(logs, query))
  }

  /** What the list shows: newest first, every entry taken from `logs`, and each
      matching entry exactly as often as it occurs there (all of them for the empty
      query). */
  lemma FilteredSpec(logs: seq<LogEntry>, query: string)
    ensures NewestFirst(Filtered(logs, query))
    ensures forall l :: multiset(Filtered(logs, query))[l] ==
                          if query == "" || Matches(l, query) then multiset(logs)[l] else 0
    ensures forall l :: l in Filtered(logs, query) <==> l in logs && (query == "" || Matches(l, query))
  {
    var r := Filtered(logs, query);
    forall l ensures l in r <==> l in logs && (query == "" || Matches(l, query)) {
      assert l in r <==> multiset(r)[l] > 0;
      assert l in logs <==> multiset(logs)[l] > 0;
    }
  }

  /** Every entry matches the empty query, so the empty-query shortcut shows what the
      filter would have shown. */
  lemma {:induction false} EmptyQueryMatchesAll(logs: seq<LogEntry>)
    ensures Matching(logs, "") == logs
    decreases |logs|
  {
    if |logs| > 0 {
      assert StartsWith(ToLower(logs[0].doctorName), ToLower(""));
      EmptyQueryMatchesAll(logs[1..]);
      assert logs == [logs[0]] + logs[1..];
    }
  }

  /** The demonstration records are already newest first and are shown as they are. */
  lemma DemoShownInOrder()
    ensures Filtered(DemoLogs, "") == DemoLogs
  {
    var a, b, c := DemoLogs[0], DemoLogs[1], DemoLogs[2];
    assert DemoLogs[1..] == [b, c];
    assert DemoLogs[1..][1..] == [c];
    assert SortNewestFirst([c]) == [c];
    assert Insert(b, [c]) == [b, c];
    assert Insert(a, [b, c]) == [a, b, c];
  }

  /** `toggle(id)`: the expanded row after a click on row `id`. */
  function Toggled(expanded: Option<int>, id: int): (r: Option<int>)
    ensures r == Some(id) <==> expanded != Some(id)
    ensures r.None? <==> expanded == Some(id)
  {
    if expanded == Some(id) then None else Some(id)
  }

  /** A second click on the same row undoes the first, when no other row was open. */
  lemma ToggleTwice(expanded: Option<int>, id: int)
    requires expanded.None? || expanded == Some(id)
    ensures Toggled(Toggled(expanded, id), id) == expanded
  {
  }

  /** The page's state: the fixed log list, the search query and the expanded row. */
  class AccessLogView {
    const logs: seq<LogEntry>
    var query: string
    var expandedId: Option<int>

    constructor (initial: seq<LogEntry>)
      ensures logs == initial && query == "" && expandedId.None?
    {
      logs := initial;
      query := "";
      expandedId := None;
    }

    /** The rows on screen. */
    function Visible(): seq<LogEntry>
      reads this
    {
      Filtered(logs, query)
    }

    /** Whether row `id` shows its detail row; at most one row does. */
    predicate IsExpanded(id: int)
      reads this
    {
      expandedId == Some(id)
    }

    /** Typing in the search box. */
    method SetQuery(q: string)
      modifies this
      ensures query == q && expandedId == old(expandedId)
    {
      query := q;
    }

    /** The Clear button: the query becomes empty, so every entry shows, newest first. */
    method Clear()
      modifies this
      ensures query == "" && expandedId == old(expandedId)
      ensures Visible() == SortNewestFirst(logs)
      ensures multiset(Visible()) == multiset(logs) && NewestFirst(Visible())
    {
      query := "";
    }

    method Toggle(id: int)
      modifies this
      ensures expandedId == Toggled(old(expandedId), id) && query == old(query)
      ensures IsExpanded(id) <==> !old(IsExpanded(id))
      ensures forall other :: other != id ==> !IsExpanded(other)
    {
      expandedId := if expandedId == Some(id) then None else Some(id);
    }
  }
}
