/** The statistics behind the dashboard charts: how many events each view has, and how many
    events fall under each of six type labels. Both are `reduce` loops that update a counting
    record in place; the record's entries are then listed in JavaScript's enumeration order. */
module Dashboard {
  import opened Strings
  import opened Js
  import opened Types

  /** One bar of a chart, `{ name, count }`; a counting record is a sequence of them in insertion
      order. */
  datatype Entry = Entry(name: string, count: nat)

  datatype TypeLabel = Click | View | Submit | Change | Interaction | Other

  function LabelName(t: TypeLabel): string {
    match t
    case Click => "click"
    case View => "view"
    case Submit => "submit"
    case Change => "change"
    case Interaction => "interaction"
    case Other => "other"
  }

  /** The type of an event: the first rule that applies, tried in this order. */
  function TypeOf(e: Event): TypeLabel {
    if Includes(e.eventName, ":click:") then Click
    else if Includes(e.eventName, ":view") then View
    else if Includes(e.eventName, ":submit") then Submit
    else if Includes(e.eventName, ":change") then Change
    else if e.click != [] then Interaction
    else Other
  }

  /** A name of the form `view:<page>:click:<element>` is a click, whatever the page. */
  lemma ClickNameIsClick(e: Event, page: string, element: string)
    requires e.eventName == "view:" + page + ":click:" + element
    ensures TypeOf(e) == Click
  {
    assert e.eventName[5 + |page|..5 + |page| + 7] == ":click:";
    assert OccursAt(e.eventName, ":click:", 5 + |page|);
  }

  /** In `view:<page>` with a colon-free page, a pattern `:<word>` can only match at the one
      colon, so it occurs exactly when the page starts with the word. */
  lemma ColonPattern(page: string, word: string)
    requires ':' !in page
    ensures Includes("view:" + page, [':'] + word) <==> StartsWith(page, word)
  {
    var s := "view:" + page;
    var pat := [':'] + word;
    forall i: nat | OccursAt(s, pat, i) ensures i == 4 {
      assert s[i] == pat[0];
    }
    if StartsWith(page, word) {
      assert s[4..4 + |pat|] == [':'] + page[..|word|];
      assert OccursAt(s, pat, 4);
    }
    if OccursAt(s, pat, 4) {
      assert page[..|word|] == s[4..4 + |pat|][1..];
    }
  }

  /** A page-view name `view:<page>` without a click is classified by how the page name
      starts: the `:view` rule does not see the leading `view:`, so `view:pricing` is "other"
      and only a page called `view...` makes it a view. */
  lemma PageViewName(e: Event, page: string)
    requires e.eventName == "view:" + page && ':' !in page && e.click == []
    ensures TypeOf(e) ==
      if StartsWith(page, "view") then View
      else if StartsWith(page, "submit") then Submit
      else if StartsWith(page, "change") then Change
      else Other
  {
    NoClickPattern(page);
    ColonPattern(page, "view");
    assert ":view" == [':'] + "view";
    ColonPattern(page, "submit");
    assert ":submit" == [':'] + "submit";
    ColonPattern(page, "change");
    assert ":change" == [':'] + "change";
  }

  lemma NoClickPattern(page: string)
    requires ':' !in page
    ensures !Includes("view:" + page, ":click:")
  {
    ColonPattern(page, "click:");
    assert ":click:" == [':'] + "click:";
    if |page| >= 6 {
      assert page[..6][5] == page[5] != "click:"[5];
    }
  }

  lemma PricingViewIsOther(e: Event)
    requires e.eventName == "view:pricing" && e.click == []
    ensures TypeOf(e) == Other
  {
    assert e.eventName == "view:" + "pricing";
    assert !StartsWith("pricing", "view") && !StartsWith("pricing", "submit") && !StartsWith("pricing", "change") by {
      assert "pricing"[0] == 'p';
    }
    PageViewName(e, "pricing");
  }

  function NamesOf(acc: seq<Entry>): (r: seq<string>)
    ensures |r| == |acc|
    ensures forall j :: 0 <= j < |acc| ==> r[j] == acc[j].name
  {
    seq(|acc|, j requires 0 <= j < |acc| => acc[j].name)
  }

  /** No name is listed twice, as in a JavaScript object. */
  predicate Keyed(acc: seq<Entry>) {
    forall i, j :: 0 <= i < j < |acc| ==> acc[i].name != acc[j].name
  }

  function Sum(acc: seq<Entry>): nat {
    if acc == [] then 0 else acc[0].count + Sum(acc[1..])
  }

  /** How often `k` occurs in `keys`. */
  function Count(keys: seq<string>, k: string): nat {
    if keys == [] then 0
    else Count(keys[..|keys| - 1], k) + (if keys[|keys| - 1] == k then 1 else 0)
  }

  /** The keys in order of first occurrence, each once. */
  function Dedup(keys: seq<string>): (r: seq<string>)
    ensures forall k :: k in r <==> k in keys
    ensures forall i, j :: 0 <= i < j < |r| ==> r[i] != r[j]
  {
    if keys == [] then []
    else
      var d := Dedup(keys[..|keys| - 1]);
      var k := keys[|keys| - 1];
      assert forall x :: x in keys <==> x in keys[..|keys| - 1] || x == k by {
        assert keys == keys[..|keys| - 1] + [k];
      }
      if k in d then d else d + [k]
  }

  lemma {:induction false} CountZero(keys: seq<string>, k: string)
    ensures Count(keys, k) == 0 <==> k !in keys
  {
    if keys != [] {
      var p := keys[..|keys| - 1];
      CountZero(p, k);
      assert keys == p + [keys[|keys| - 1]];
    }
  }

  /** The position of the entry named `k`, or `|acc|` when there is none. */
  function Position(acc: seq<Entry>, k: string): (r: nat)
    ensures r <= |acc|
    ensures r < |acc| ==> acc[r].name == k
    ensures forall j :: 0 <= j < r ==> acc[j].name != k
  {
    if acc == [] then 0
    else if acc[0].name == k then 0
    else
      var r := Position(acc[1..], k) + 1;
      assert forall j :: 0 < j < r ==> acc[j] == acc[1..][j - 1];
      r
  }

  /** `acc[k] = (acc[k] || 0) + 1`: the count of `k` goes up by one, in place; a new key is
      added last with count 1. */
  function Bump(acc: seq<Entry>, k: string): (r: seq<Entry>)
    ensures Sum(r) == Sum(acc) + 1
    ensures k in NamesOf(r)
  {
    var i := Position(acc, k);
    if i < |acc| then
      SumUpdate(acc, i, Entry(k, acc[i].count + 1));
      assert NamesOf(acc[i := Entry(k, acc[i].count + 1)])[i] == k;
      acc[i := Entry(k, acc[i].count + 1)]
    else
      SumAppend(acc, [Entry(k, 1)]);
      assert Sum([Entry(k, 1)]) == 1;
      assert NamesOf(acc + [Entry(k, 1)])[|acc|] == k;
      acc + [Entry(k, 1)]
  }

  lemma {:induction false} SumAppend(a: seq<Entry>, b: seq<Entry>)
    ensures Sum(a + b) == Sum(a) + Sum(b)
  {
    if a == [] {
      assert a + b == b;
    } else {
      assert (a + b)[1..] == a[1..] + b;
      SumAppend(a[1..], b);
    }
  }

  lemma {:induction false} SumUpdate(acc: seq<Entry>, i: nat, e: Entry)
    requires i < |acc|
    ensures Sum(acc[i := e]) + acc[i].count == Sum(acc) + e.count
  {
    if i > 0 {
      assert acc[i := e][1..] == acc[1..][i - 1 := e];
      SumUpdate(acc[1..], i - 1, e);
    } else {
      assert acc[i := e][1..] == acc[1..];
    }
  }

  /** A counting record that holds, in first-occurrence order, how often each of `keys` occurs. */
  ghost predicate Tallies(acc: seq<Entry>, keys: seq<string>) {
    Keyed(acc) && NamesOf(acc) == Dedup(keys)
    && (forall j :: 0 <= j < |acc| ==> acc[j].count == Count(keys, acc[j].name))
    && Sum(acc) == |keys|
  }

  /** Counting one more key keeps the record an exact tally. */
  lemma TalliesStep(acc: seq<Entry>, keys: seq<string>, k: string)
    requires Tallies(acc, keys)
    ensures Tallies(Bump(acc, k), keys + [k])
  {
    var keys' := keys + [k];
    assert keys'[..|keys'| - 1] == keys;
    if Position(acc, k) < |acc| {
      BumpPresent(acc, keys, k);
    } else {
      BumpAbsent(acc, keys, k);
    }
  }

  lemma BumpPresent(acc: seq<Entry>, keys: seq<string>, k: string)
    requires Tallies(acc, keys) && Position(acc, k) < |acc|
    ensures NamesOf(Bump(acc, k)) == Dedup(keys + [k]) && Keyed(Bump(acc, k))
    ensures forall j :: 0 <= j < |acc| ==> Bump(acc, k)[j].count == Count(keys + [k], acc[j].name)
  {
    var keys' := keys + [k];
    assert keys'[..|keys'| - 1] == keys;
    var i := Position(acc, k);
    var r := Bump(acc, k);
    assert k in Dedup(keys) by { assert NamesOf(acc)[i] == k; }
    assert NamesOf(r) == NamesOf(acc);
  }

  lemma BumpAbsent(acc: seq<Entry>, keys: seq<string>, k: string)
    requires Tallies(acc, keys) && Position(acc, k) == |acc|
    ensures NamesOf(Bump(acc, k)) == Dedup(keys + [k]) && Keyed(Bump(acc, k))
    ensures forall j :: 0 <= j < |acc| + 1 ==> Bump(acc, k)[j].count == Count(keys + [k], Bump(acc, k)[j].name)
  {
    var keys' := keys + [k];
    assert keys'[..|keys'| - 1] == keys;
    var r := Bump(acc, k);
    assert k !in NamesOf(acc);
    CountZero(keys, k);
    assert NamesOf(r) == NamesOf(acc) + [k];
  }

  function Views(events: seq<Event>): (r: seq<string>)
    ensures |r| == |events|
    ensures forall i :: 0 <= i < |events| ==> r[i] == events[i].view
  {
    seq(|events|, i requires 0 <= i < |events| => events[i].view)
  }

  function Labels(events: seq<Event>): (r: seq<string>)
    ensures |r| == |events|
    ensures forall i :: 0 <= i < |events| ==> r[i] == LabelName(TypeOf(events[i]))
  {
    seq(|events|, i requires 0 <= i < |events| => LabelName(TypeOf(events[i])))
  }

  lemma LabelsStep(events: seq<Event>, i: nat)
    requires i < |events|
    ensures Labels(events[..i + 1]) == Labels(events[..i]) + [LabelName(TypeOf(events[i]))]
  {
    assert Labels(events[..i + 1]) == Labels(events[..i]) + [LabelName(TypeOf(events[i]))];
  }

  /** `viewCounts`: the events per view. */
  method ViewCounts(events: seq<Event>) returns (acc: seq<Entry>)
    ensures Tallies(acc, Views(events))
  {
    acc := [];
    for i := 0 to |events|
      invariant Tallies(acc, Views(events[..i]))
    {
      assert Views(events[..i + 1]) == Views(events[..i]) + [events[i].view];
      TalliesStep(acc, Views(events[..i]), events[i].view);
      acc := Bump(acc, events[i].view);
    }
    assert events[..|events|] == events;
  }

  /** `typeCounts`: each event is classified by the first rule that matches, then counted under
      its label. */
  method TypeCounts(events: seq<Event>) returns (acc: seq<Entry>)
    ensures Tallies(acc, Labels(events))
  {
    acc := [];
    for i := 0 to |events|
      invariant Tallies(acc, Labels(events[..i]))
    {
      var e := events[i];
      var kind := Other;
      if Includes(e.eventName, ":click:") {
        kind := Click;
      } else if Includes(e.eventName, ":view") {
        kind := View;
      } else if Includes(e.eventName, ":submit") {
        kind := Submit;
      } else if Includes(e.eventName, ":change") {
        kind := Change;
      } else if e.click != [] {
        kind := Interaction;
      }
      assert kind == TypeOf(e);
      LabelsStep(events, i);
      TalliesStep(acc, Labels(events[..i]), LabelName(kind));
      acc := Bump(acc, LabelName(kind));
    }
    assert events[..|events|] == events;
  }

  // ---------------------------------------------------------------------------------------
  // Object.entries: array-index keys first, in ascending numeric order, then the other keys
  // in insertion order.

  function IndexKeyed(acc: seq<Entry>): (r: seq<Entry>)
    ensures forall x :: x in r <==> x in acc && IsArrayIndex(x.name)
    ensures (forall x :: x in acc ==> !IsArrayIndex(x.name)) ==> r == []
  {
    if acc == [] then []
    else
      var rest := IndexKeyed(acc[1..]);
      assert forall x :: x in acc <==> x == acc[0] || x in acc[1..];
      if IsArrayIndex(acc[0].name) then [acc[0]] + rest else rest
  }

  function OtherKeyed(acc: seq<Entry>): (r: seq<Entry>)
    ensures forall x :: x in r <==> x in acc && !IsArrayIndex(x.name)
    ensures (forall x :: x in acc ==> !IsArrayIndex(x.name)) ==> r == acc
  {
    if acc == [] then []
    else
      var rest := OtherKeyed(acc[1..]);
      assert forall x :: x in acc <==> x == acc[0] || x in acc[1..];
      if !IsArrayIndex(acc[0].name) then [acc[0]] + rest else rest
  }

  /** An entry whose name no entry of a keyed record carries can be put in front of it. */
  lemma KeyedCons(x: Entry, s: seq<Entry>)
    requires Keyed(s) && forall y :: y in s ==> y.name != x.name
    ensures Keyed([x] + s)
  {
    forall i, j | 0 <= i < j < |[x] + s| ensures ([x] + s)[i].name != ([x] + s)[j].name {
      assert ([x] + s)[j] == s[j - 1];
      if i > 0 { assert ([x] + s)[i] == s[i - 1]; } else { assert s[j - 1] in s; }
    }
  }

  /** Keeping some of a keyed record's entries, in order, gives a keyed record. */
  lemma {:induction false} FilterKeyed(acc: seq<Entry>)
    requires Keyed(acc)
    ensures Keyed(IndexKeyed(acc)) && Keyed(OtherKeyed(acc))
  {
    if acc != [] {
      assert Keyed(acc[1..]);
      FilterKeyed(acc[1..]);
      forall y | y in acc[1..] ensures y.name != acc[0].name {
        var k :| 0 <= k < |acc[1..]| && acc[1..][k] == y;
        assert acc[k + 1] == y;
      }
      if IsArrayIndex(acc[0].name) {
        KeyedCons(acc[0], IndexKeyed(acc[1..]));
      } else {
        KeyedCons(acc[0], OtherKeyed(acc[1..]));
      }
    }
  }

  function IndexOf(x: Entry): nat
    requires IsArrayIndex(x.name)
  {
    ParseNat(x.name)
  }

  /** Each entry's index is below the next one's. */
  predicate Ascending(s: seq<Entry>)
    requires forall x :: x in s ==> IsArrayIndex(x.name)
  {
    forall i :: 0 <= i < |s| - 1 ==> IndexOf(s[i]) < IndexOf(s[i + 1])
  }

  /** Inserts an entry with an array-index key into a list kept in ascending index order. */
  function Insert(x: Entry, s: seq<Entry>): (r: seq<Entry>)
    requires IsArrayIndex(x.name) && forall y :: y in s ==> IsArrayIndex(y.name)
    ensures forall y :: y in r <==> y == x || y in s
    ensures |r| == |s| + 1
    ensures r[0] == x || (s != [] && r[0] == s[0])
    ensures Sum(r) == x.count + Sum(s)
  {
    if s == [] then [x]
    else if IndexOf(x) <= IndexOf(s[0]) then [x] + s
    else
      var rest := Insert(x, s[1..]);
      assert forall y :: y in s <==> y == s[0] || y in s[1..];
      assert ([s[0]] + rest)[1..] == rest;
      [s[0]] + rest
  }

  /** Different array-index keys denote different numbers. */
  lemma DistinctIndex(x: Entry, y: Entry)
    requires IsArrayIndex(x.name) && IsArrayIndex(y.name) && x.name != y.name
    ensures IndexOf(x) != IndexOf(y)
  {
    NatToStringParse(x.name);
    NatToStringParse(y.name);
  }

  /** Insertion keeps a list keyed when the new key is not in it yet. */
  lemma {:induction false} InsertKeyed(x: Entry, s: seq<Entry>)
    requires IsArrayIndex(x.name) && forall y :: y in s ==> IsArrayIndex(y.name)
    requires Keyed(s) && forall y :: y in s ==> y.name != x.name
    ensures Keyed(Insert(x, s))
  {
    if s == [] {
    } else if IndexOf(x) <= IndexOf(s[0]) {
      KeyedCons(x, s);
    } else {
      assert forall y :: y in s[1..] ==> y in s;
      assert Keyed(s[1..]);
      InsertKeyed(x, s[1..]);
      var rest := Insert(x, s[1..]);
      forall y | y in rest ensures y.name != s[0].name {
        if y != x {
          var k :| 0 <= k < |s[1..]| && s[1..][k] == y;
          assert s[k + 1] == y;
        }
      }
      KeyedCons(s[0], rest);
    }
  }

  /** Insertion keeps a list ascending when the new key is not in it yet. */
  lemma {:induction false} InsertAscending(x: Entry, s: seq<Entry>)
    requires IsArrayIndex(x.name) && forall y :: y in s ==> IsArrayIndex(y.name)
    requires Ascending(s) && forall y :: y in s ==> y.name != x.name
    ensures Ascending(Insert(x, s))
  {
    if s == [] {
    } else if IndexOf(x) <= IndexOf(s[0]) {
      assert s[0] in s;
      DistinctIndex(x, s[0]);
    } else {
      assert forall y :: y in s[1..] ==> y in s;
      InsertAscending(x, s[1..]);
      if |s| > 1 { assert IndexOf(s[0]) < IndexOf(s[1]); }
    }
  }

  function SortByIndex(s: seq<Entry>): (r: seq<Entry>)
    requires forall y :: y in s ==> IsArrayIndex(y.name)
    ensures forall y :: y in r <==> y in s
    ensures |r| == |s|
    ensures Sum(r) == Sum(s)
  {
    if s == [] then []
    else
      assert forall y :: y in s <==> y == s[0] || y in s[1..];
      assert s == [s[0]] + s[1..];
      Insert(s[0], SortByIndex(s[1..]))
  }

  /** Sorting a keyed list of array-index entries orders them by index and keeps them keyed. */
  lemma {:induction false} SortSorted(s: seq<Entry>)
    requires forall y :: y in s ==> IsArrayIndex(y.name)
    requires Keyed(s)
    ensures Ascending(SortByIndex(s)) && Keyed(SortByIndex(s))
  {
    if s != [] {
      assert forall y :: y in s[1..] ==> y in s;
      assert Keyed(s[1..]);
      SortSorted(s[1..]);
      var rest := SortByIndex(s[1..]);
      forall y | y in rest ensures y.name != s[0].name {
        var k :| 0 <= k < |s[1..]| && s[1..][k] == y;
        assert s[k + 1] == y;
      }
      InsertKeyed(s[0], rest);
      InsertAscending(s[0], rest);
    }
  }

  /** `Object.entries(acc)`. */
  function Entries(acc: seq<Entry>): seq<Entry> {
    SortByIndex(IndexKeyed(acc)) + OtherKeyed(acc)
  }

  lemma {:induction false} SumSplit(acc: seq<Entry>)
    ensures Sum(IndexKeyed(acc)) + Sum(OtherKeyed(acc)) == Sum(acc)
  {
    if acc != [] {
      SumSplit(acc[1..]);
      if IsArrayIndex(acc[0].name) {
        assert ([acc[0]] + IndexKeyed(acc[1..]))[1..] == IndexKeyed(acc[1..]);
      } else {
        assert ([acc[0]] + OtherKeyed(acc[1..]))[1..] == OtherKeyed(acc[1..]);
      }
    }
  }

  /** Listing a counting record's entries changes only their order: the same entries, the same
      total, still keyed; the array-index keys lead in ascending order, and a record without
      them keeps its insertion order. */
  lemma EntriesPermutes(acc: seq<Entry>)
    requires Keyed(acc)
    ensures forall x :: x in Entries(acc) <==> x in acc
    ensures Keyed(Entries(acc))
    ensures Sum(Entries(acc)) == Sum(acc)
    ensures Ascending(SortByIndex(IndexKeyed(acc)))
    ensures (forall x :: x in acc ==> !IsArrayIndex(x.name)) ==> Entries(acc) == acc
  {
    var a := SortByIndex(IndexKeyed(acc));
    var b := OtherKeyed(acc);
    FilterKeyed(acc);
    SortSorted(IndexKeyed(acc));
    SumAppend(a, b);
    SumSplit(acc);
    forall x, y | x in a && y in b ensures x.name != y.name {
      assert IsArrayIndex(x.name) && !IsArrayIndex(y.name);
    }
    KeyedAppend(a, b);
  }

  lemma KeyedAppend(a: seq<Entry>, b: seq<Entry>)
    requires Keyed(a) && Keyed(b)
    requires forall x, y :: x in a && y in b ==> x.name != y.name
    ensures Keyed(a + b)
  {
    forall i, j | 0 <= i < j < |a + b| ensures (a + b)[i].name != (a + b)[j].name {
      if i < |a| && j >= |a| {
        assert (a + b)[i] in a && (a + b)[j] in b;
      } else if i < |a| {
        assert (a + b)[i] == a[i] && (a + b)[j] == a[j];
      } else {
        assert (a + b)[i] == b[i - |a|] && (a + b)[j] == b[j - |a|];
      }
    }
  }

  /** What the listed entries of an exact tally say about the counted keys. */
  lemma TallyEntries(acc: seq<Entry>, keys: seq<string>)
    requires Tallies(acc, keys)
    ensures forall x :: x in Entries(acc) ==> x.count == Count(keys, x.name) && x.count >= 1
    ensures forall k :: k in NamesOf(Entries(acc)) <==> k in keys
    ensures Keyed(Entries(acc)) && Sum(Entries(acc)) == |keys|
  {
    EntriesPermutes(acc);
    TallyCounts(acc, keys);
    SameNames(acc, Entries(acc));
  }

  lemma TallyCounts(acc: seq<Entry>, keys: seq<string>)
    requires Tallies(acc, keys)
    ensures forall x :: x in acc ==> x.count == Count(keys, x.name) && x.count >= 1
  {
    forall x | x in acc ensures x.count == Count(keys, x.name) && x.count >= 1 {
      var j :| 0 <= j < |acc| && acc[j] == x;
      assert NamesOf(acc)[j] == x.name;
      CountZero(keys, x.name);
    }
  }

  /** Records with the same entries carry the same names. */
  lemma SameNames(acc: seq<Entry>, r: seq<Entry>)
    requires forall x :: x in r <==> x in acc
    ensures forall k :: k in NamesOf(r) <==> k in NamesOf(acc)
  {
    forall k | k in NamesOf(r) ensures k in NamesOf(acc) {
      var j :| 0 <= j < |r| && NamesOf(r)[j] == k;
      assert r[j] in acc;
      var i :| 0 <= i < |acc| && acc[i] == r[j];
      assert NamesOf(acc)[i] == k;
    }
    forall k | k in NamesOf(acc) ensures k in NamesOf(r) {
      var i :| 0 <= i < |acc| && NamesOf(acc)[i] == k;
      assert acc[i] in r;
      var j :| 0 <= j < |r| && r[j] == acc[i];
      assert NamesOf(r)[j] == k;
    }
  }

  lemma InViews(events: seq<Event>, v: string)
    ensures v in Views(events) <==> exists e :: e in events && e.view == v
  {
    if v in Views(events) {
      var i :| 0 <= i < |events| && Views(events)[i] == v;
      assert events[i] in events;
    }
    if exists e :: e in events && e.view == v {
      var e :| e in events && e.view == v;
      var i :| 0 <= i < |events| && events[i] == e;
      assert Views(events)[i] == v;
    }
  }

  /** No type label is an array-index key, so the type bars keep first-occurrence order. */
  lemma LabelsNotIndices(name: string)
    requires exists t: TypeLabel :: name == LabelName(t)
    ensures !IsArrayIndex(name)
  {
    var t: TypeLabel :| name == LabelName(t);
    assert !IsDigit(name[0]);
  }

  /** The dashboard's `stats`: the per-view and per-type bars. */
  method Stats(events: seq<Event>) returns (viewData: seq<Entry>, typeData: seq<Entry>)
    ensures forall x :: x in viewData ==> x.count == Count(Views(events), x.name) && x.count >= 1
    ensures forall v :: v in NamesOf(viewData) <==> exists e :: e in events && e.view == v
    ensures Keyed(viewData) && Sum(viewData) == |events|
    ensures forall x :: x in typeData ==> x.count == Count(Labels(events), x.name) && x.count >= 1
    ensures forall x :: x in typeData ==> exists t: TypeLabel :: x.name == LabelName(t)
    ensures NamesOf(typeData) == Dedup(Labels(events))
    ensures Keyed(typeData) && Sum(typeData) == |events|
  {
    var viewCounts := ViewCounts(events);
    var typeCounts := TypeCounts(events);
    viewData := Entries(viewCounts);
    typeData := Entries(typeCounts);
    TallyEntries(viewCounts, Views(events));
    TallyEntries(typeCounts, Labels(events));
    forall v ensures v in NamesOf(viewData) <==> exists e :: e in events && e.view == v {
      InViews(events, v);
    }
    forall x | x in typeCounts ensures exists t: TypeLabel :: x.name == LabelName(t) {
      var j :| 0 <= j < |typeCounts| && typeCounts[j] == x;
      assert x.name in Labels(events) by { assert NamesOf(typeCounts)[j] == x.name; }
      var i :| 0 <= i < |events| && Labels(events)[i] == x.name;
    }
    forall x | x in typeCounts ensures !IsArrayIndex(x.name) {
      LabelsNotIndices(x.name);
    }
    EntriesPermutes(typeCounts);
  }
}
