/**
 The content planner (src/app/content-planner/page.tsx): the user's ideas,
 fetched as one list, are grouped into buckets keyed by their date; a new
 idea is appended to its date's bucket once stored. Dates are the page's
 `yyyy-MM-dd` keys, taken here as opaque strings.
 */
module ContentPlanner {
  import opened Common

  /** A content idea; `createdAt` is a timestamp. */
  datatype Idea = Idea(uid: string, date: string, text: string, createdAt: int)

  /** The record written for a new idea; the store adds the id and time. */
  datatype NewIdea = NewIdea(uid: string, date: string, text: string)

  /** What a submit does: the record written, the buckets and dialog
      afterwards, and the toast. */
  datatype Submitted = Submitted(written: NewIdea, buckets: map<string, seq<Idea>>, dialogOpen: bool, toast: Toast)

  const SuccessToast := Toast("Success", "Your content idea has been saved.", Plain)
  const FailureToast := Toast("Error", "Failed to save idea. Please try again.", Destructive)

  /** Every bucket present holds at least one idea. */
  predicate NoEmptyBucket(b: map<string, seq<Idea>>) {
    forall d | d in b :: |b[d]| > 0
  }

  /** Every idea sits in the bucket of its own date. */
  predicate BucketsKeyedByDate(b: map<string, seq<Idea>>) {
    forall d | d in b :: forall i | 0 <= i < |b[d]| :: b[d][i].date == d
  }

  /** One step of the reduce: push `x` onto its date's bucket, creating the
      bucket first if there is none. */
  function AddToBucket(b: map<string, seq<Idea>>, x: Idea): (r: map<string, seq<Idea>>)
    ensures r.Keys == b.Keys + {x.date}
    ensures r[x.date] == (if x.date in b then b[x.date] else []) + [x]
    ensures forall d | d in b && d != x.date :: r[d] == b[d]
  {
    b[x.date := (if x.date in b then b[x.date] else []) + [x]]
  }

  /** The ideas on date `d`, in list order: the reference every bucket is
      checked against. */
  function OnDate(xs: seq<Idea>, d: string): (r: seq<Idea>)
    ensures |r| <= |xs|
    ensures forall i | 0 <= i < |r| :: r[i].date == d
    ensures forall x :: x in r <==> x in xs && x.date == d
    decreases |xs|
  {
    if |xs| == 0 then []
    else
      var init := OnDate(xs[..|xs| - 1], d);
      var last := xs[|xs| - 1];
      assert xs == xs[..|xs| - 1] + [last];
      if last.date == d then init + [last] else init
  }

  /** The dates that occur in the list. */
  function Dates(xs: seq<Idea>): set<string> {
    set i | 0 <= i < |xs| :: xs[i].date
  }

  /** `userIdeas.reduce(...)` from an empty record. */
  function GroupByDate(xs: seq<Idea>): map<string, seq<Idea>>
    decreases |xs|
  {
    if |xs| == 0 then map[] else AddToBucket(GroupByDate(xs[..|xs| - 1]), xs[|xs| - 1])
  }

  /** A date that does not occur has no ideas. */
  lemma OnDateAbsent(xs: seq<Idea>, d: string)
    requires d !in Dates(xs)
    ensures OnDate(xs, d) == []
  {
  }

  lemma DatesOfSnoc(xs: seq<Idea>)
    requires |xs| > 0
    ensures Dates(xs) == Dates(xs[..|xs| - 1]) + {xs[|xs| - 1].date}
  {
    var init := xs[..|xs| - 1];
    assert forall i | 0 <= i < |init| :: init[i] == xs[i];
  }

  /** Exactly the dates that occur get a bucket. */
  lemma {:induction false} GroupedKeys(xs: seq<Idea>)
    ensures GroupByDate(xs).Keys == Dates(xs)
    decreases |xs|
  {
    if |xs| > 0 {
      GroupedKeys(xs[..|xs| - 1]);
      DatesOfSnoc(xs);
    }
  }

  /** Each bucket holds its date's ideas in list order. */
  lemma {:induction false} GroupedInOrder(xs: seq<Idea>)
    ensures forall d | d in GroupByDate(xs) :: GroupByDate(xs)[d] == OnDate(xs, d)
    decreases |xs|
  {
    if |xs| > 0 {
      var init := xs[..|xs| - 1];
      var last := xs[|xs| - 1];
      var g := GroupByDate(init);
      GroupedInOrder(init);
      GroupedKeys(init);
      if last.date !in g {
        OnDateAbsent(init, last.date);
      }
    }
  }

  /** Grouping never creates an empty bucket. */
  lemma {:induction false} GroupedNonEmpty(xs: seq<Idea>)
    ensures NoEmptyBucket(GroupByDate(xs))
    decreases |xs|
  {
    if |xs| > 0 {
      GroupedNonEmpty(xs[..|xs| - 1]);
    }
  }

  /** Grouping is exact: exactly the dates that occur get a bucket, each
      bucket holds that date's ideas in list order, and none is empty. */
  lemma GroupedBuckets(xs: seq<Idea>)
    ensures GroupByDate(xs).Keys == Dates(xs)
    ensures forall d | d in GroupByDate(xs) :: GroupByDate(xs)[d] == OnDate(xs, d)
    ensures NoEmptyBucket(GroupByDate(xs))
  {
    GroupedKeys(xs);
    GroupedInOrder(xs);
    GroupedNonEmpty(xs);
  }

  /** Appending an idea to the list and then grouping is grouping and then
      adding the idea to its bucket: the optimistic update agrees with the
      grouping of a list that holds the idea last. A fetch sorts ideas newest
      first, so after a reload the idea leads its day's list instead. */
  lemma GroupThenAdd(xs: seq<Idea>, x: Idea)
    ensures GroupByDate(xs + [x]) == AddToBucket(GroupByDate(xs), x)
  {
    assert (xs + [x])[..|xs|] == xs;
  }

  /** Some date of a non-empty map of buckets. */
  ghost function SomeDate(b: map<string, seq<Idea>>): (d: string)
    requires |b.Keys| > 0
    ensures d in b
  {
    var d :| d in b; d
  }

  /** The number of ideas over all buckets. */
  ghost function TotalSize(b: map<string, seq<Idea>>): nat
    decreases |b.Keys|
  {
    if |b.Keys| == 0 then 0
    else
      var d := SomeDate(b);
      assert |(b - {d}).Keys| < |b.Keys| by {
        assert (b - {d}).Keys == b.Keys - {d};
      }
      |b[d]| + TotalSize(b - {d})
  }

  /** The total can be taken out along any bucket. */
  lemma {:induction false} TotalSizeRemove(b: map<string, seq<Idea>>, k: string)
    requires k in b
    ensures TotalSize(b) == |b[k]| + TotalSize(b - {k})
    decreases |b.Keys|
  {
    var d := SomeDate(b);
    assert (b - {d}).Keys == b.Keys - {d};
    assert (b - {k}).Keys == b.Keys - {k};
    assert TotalSize(b) == |b[d]| + TotalSize(b - {d});
    if d != k {
      TotalSizeRemove(b - {d}, k);
      TotalSizeRemove(b - {k}, d);
      assert (b - {d})[k] == b[k] && (b - {k})[d] == b[d];
      assert (b - {d}) - {k} == (b - {k}) - {d};
    }
  }

  /** Adding an idea adds one to the total. */
  lemma TotalSizeAdd(b: map<string, seq<Idea>>, x: Idea)
    ensures TotalSize(AddToBucket(b, x)) == TotalSize(b) + 1
  {
    var r := AddToBucket(b, x);
    TotalSizeRemove(r, x.date);
    AddThenRemove(b, x);
    if x.date in b {
      TotalSizeRemove(b, x.date);
    } else {
      assert b - {x.date} == b;
    }
  }

  /** Adding an idea touches only its own date's bucket. */
  lemma AddThenRemove(b: map<string, seq<Idea>>, x: Idea)
    ensures AddToBucket(b, x) - {x.date} == b - {x.date}
  {
  }

  /** No idea is lost or duplicated by grouping: the bucket sizes add up to
      the number of ideas fetched. */
  lemma {:induction false} GroupedSizesSum(xs: seq<Idea>)
    ensures TotalSize(GroupByDate(xs)) == |xs|
    decreases |xs|
  {
    if |xs| == 0 {
      assert GroupByDate(xs).Keys == {};
    } else {
      GroupedSizesSum(xs[..|xs| - 1]);
      GroupedBuckets(xs[..|xs| - 1]);
      TotalSizeAdd(GroupByDate(xs[..|xs| - 1]), xs[|xs| - 1]);
    }
  }

  /** Adding an idea keeps every bucket non-empty and keyed by its date. */
  lemma AddKeepsBucketsWellFormed(b: map<string, seq<Idea>>, x: Idea)
    requires NoEmptyBucket(b) && BucketsKeyedByDate(b)
    ensures NoEmptyBucket(AddToBucket(b, x)) && BucketsKeyedByDate(AddToBucket(b, x))
  {
  }

  /** The dot under a calendar day. */
  predicate DayHasIdea(b: map<string, seq<Idea>>, d: string) {
    d in b && |b[d]| > 0
  }

  /** After a fetch, a day shows the dot exactly when some fetched idea is
      on that day. */
  lemma DotIffIdeaOnDay(xs: seq<Idea>, d: string)
    ensures DayHasIdea(GroupByDate(xs), d) <==> exists i | 0 <= i < |xs| :: xs[i].date == d
  {
    GroupedBuckets(xs);
  }

  /** `selectedDateIdeas`: the selected day's bucket, empty when there is
      none or no day is selected. */
  function SelectedDateIdeas(b: map<string, seq<Idea>>, date: Option<string>): (r: seq<Idea>)
    ensures date.None? ==> r == []
    ensures date.Some? && date.value in b ==> r == b[date.value]
    ensures date.Some? && date.value !in b ==> r == []
  {
    match date
    case None => []
    case Some(d) => if d in b then b[d] else []
  }

  /** After a fetch, the selected day lists that day's ideas in fetch order. */
  lemma SelectedDayAfterFetch(xs: seq<Idea>, d: string)
    ensures SelectedDateIdeas(GroupByDate(xs), Some(d)) == OnDate(xs, d)
  {
    GroupedKeys(xs);
    if d in GroupByDate(xs) {
      GroupedInOrder(xs);
    } else {
      OnDateAbsent(xs, d);
    }
  }

  /** `onSubmit(values)`: nothing without a user or a selected day;
      otherwise the idea is written, and once stored it is appended to its
      day's bucket (stamped with `now`), the dialog closes and a success
      toast shows; a failed write changes no bucket and keeps the dialog. */
  function SubmitIdea(b: map<string, seq<Idea>>, dialogOpen: bool, user: Option<string>, date: Option<string>, text: string, now: int, stored: bool): (r: Option<Submitted>)
    ensures r.None? <==> user.None? || date.None?
    ensures r.Some? ==> r.value.written == NewIdea(user.value, date.value, text)
    ensures r.Some? && stored ==>
              && r.value.buckets == AddToBucket(b, Idea(user.value, date.value, text, now))
              && !r.value.dialogOpen && r.value.toast == SuccessToast
    ensures r.Some? && !stored ==> r.value.buckets == b && r.value.dialogOpen == dialogOpen && r.value.toast == FailureToast
  {
    if user.None? || date.None? then None
    else
      var idea := NewIdea(user.value, date.value, text);
      if stored then Some(Submitted(idea, AddToBucket(b, Idea(user.value, date.value, text, now)), false, SuccessToast))
      else Some(Submitted(idea, b, dialogOpen, FailureToast))
  }

  /** A stored idea shows up last in its day's list and lights that day's
      dot; every other day is unaffected. */
  lemma StoredIdeaIsListedLast(b: map<string, seq<Idea>>, dialogOpen: bool, uid: string, d: string, text: string, now: int, other: string)
    requires other != d
    ensures var r := SubmitIdea(b, dialogOpen, Some(uid), Some(d), text, now, true).value.buckets;
            && SelectedDateIdeas(r, Some(d)) == SelectedDateIdeas(b, Some(d)) + [Idea(uid, d, text, now)]
            && DayHasIdea(r, d)
            && SelectedDateIdeas(r, Some(other)) == SelectedDateIdeas(b, Some(other))
            && (DayHasIdea(r, other) <==> DayHasIdea(b, other))
  {
  }
}
