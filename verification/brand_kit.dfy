/**
 The brand-kit page (src/app/brand-kit/page.tsx): the keywords are edited as
 one comma-separated text field and stored as a list. Loading a stored kit
 joins the list with ", "; saving splits the text on ",", trims every piece
 and drops the empty ones.
 */
module BrandKit {
  import opened Strings
  import opened Common

  /** The form as the user edits it. */
  datatype Form = Form(brandName: string, brandDescription: string, keywords: string, toneOfVoice: string)

  /** A stored brand kit. */
  datatype Kit = Kit(brandName: string, brandDescription: string, keywords: seq<string>, toneOfVoice: string)

  /** What a submit writes, for which user, and the toast it shows. */
  datatype Saved = Saved(uid: string, kit: Kit, toast: Toast)

  /** The form after the load effect, and the toast it showed, if any. */
  datatype Loaded = Loaded(form: Form, toast: Option<Toast>)

  const SavedToast := Toast("Brand Kit Saved!", "Your brand information has been successfully updated.", Plain)
  const SaveFailedToast := Toast("Save Failed", "There was an error saving your brand kit. Please try again.", Destructive)
  const LoadFailedToast := Toast("Error", "Could not load your brand kit. Please try again later.", Destructive)

  /** The form schema's minimum lengths. */
  predicate FormValid(f: Form) {
    |f.brandName| >= 2 && |f.brandDescription| >= 10 && |f.keywords| >= 3 && |f.toneOfVoice| >= 3
  }

  /** A keyword as parsing produces it: non-empty, trimmed, comma-free. */
  predicate IsKeyword(k: string) {
    k != "" && IsTrimmed(k) && ',' !in k
  }

  predicate AllKeywords(ks: seq<string>) {
    forall i | 0 <= i < |ks| :: IsKeyword(ks[i])
  }

  /** `xs` is `ys` with some elements left out, the rest in order. */
  predicate IsSubsequence(xs: seq<string>, ys: seq<string>)
    decreases |ys|
  {
    if |xs| == 0 then true
    else if |ys| == 0 then false
    else if xs[0] == ys[0] then IsSubsequence(xs[1..], ys[1..])
    else IsSubsequence(xs, ys[1..])
  }

  /** `.map(k => k.trim())`. */
  function TrimAll(xs: seq<string>): (r: seq<string>)
    ensures |r| == |xs|
    ensures forall i | 0 <= i < |xs| :: r[i] == Trim(xs[i])
  {
    seq(|xs|, i requires 0 <= i < |xs| => Trim(xs[i]))
  }

  /** `.filter(Boolean)` on strings: only the empty string is falsy. */
  function DropEmpty(xs: seq<string>): (r: seq<string>)
    ensures |r| <= |xs|
    ensures forall i | 0 <= i < |r| :: r[i] != ""
    ensures forall x :: x in r <==> x in xs && x != ""
    ensures IsSubsequence(r, xs)
    ensures multiset(r) == multiset(xs)["" := 0]
    decreases |xs|
  {
    if |xs| == 0 then []
    else
      assert xs == [xs[0]] + xs[1..];
      if xs[0] == "" then DropEmpty(xs[1..])
      else [xs[0]] + DropEmpty(xs[1..])
  }

  /** A subsequence holds no element more often than the sequence does. */
  lemma {:induction false} SubsequenceMultiset(r: seq<string>, xs: seq<string>)
    requires IsSubsequence(r, xs)
    ensures multiset(r) <= multiset(xs)
    decreases |xs|
  {
    if |r| > 0 {
      assert xs == [xs[0]] + xs[1..];
      if r[0] == xs[0] {
        assert r == [r[0]] + r[1..];
        SubsequenceMultiset(r[1..], xs[1..]);
      } else {
        SubsequenceMultiset(r, xs[1..]);
      }
    }
  }

  lemma MultisetCancel(x: string, m1: multiset<string>, m2: multiset<string>)
    requires multiset{x} + m1 == multiset{x} + m2
    ensures m1 == m2
  {
    forall y
      ensures m1[y] == m2[y]
    {
      assert (multiset{x} + m1)[y] == (multiset{x} + m2)[y];
    }
  }

  /** The order and the multiset pin the result down: a subsequence of `xs`
      holding each non-empty element as often as `xs` does, and no empty
      string, is `DropEmpty(xs)` itself. */
  lemma {:induction false} KeptPiecesDetermineResult(r: seq<string>, xs: seq<string>)
    requires IsSubsequence(r, xs)
    requires multiset(r) == multiset(xs)["" := 0]
    ensures r == DropEmpty(xs)
    decreases |xs|
  {
    if |xs| == 0 {
      assert multiset(r) == multiset{};
    } else {
      assert xs == [xs[0]] + xs[1..];
      var x := xs[0];
      if |r| == 0 {
        assert multiset(xs)[x] > 0;
        assert x == "";
        KeptPiecesDetermineResult(r, xs[1..]);
      } else if r[0] == x {
        assert r == [r[0]] + r[1..];
        assert x != "" by {
          assert multiset(r)[x] > 0;
        }
        assert multiset(r) == multiset{x} + multiset(r[1..]);
        assert multiset(xs)["" := 0] == multiset{x} + multiset(xs[1..])["" := 0];
        MultisetCancel(x, multiset(r[1..]), multiset(xs[1..])["" := 0]);
        KeptPiecesDetermineResult(r[1..], xs[1..]);
      } else {
        SubsequenceMultiset(r, xs[1..]);
        assert multiset(xs)[x] == multiset(xs[1..])[x] + 1;
        assert x == "";
        KeptPiecesDetermineResult(r, xs[1..]);
      }
    }
  }

  /** The keyword text as saved: split on commas, trimmed, empties dropped.
      Every keyword is non-empty, trimmed and comma-free; the keywords keep
      the order of their pieces; every non-empty trimmed piece is kept, as
      often as it occurs; there are at most one more than commas. */
  function ParseKeywords(raw: string): (ks: seq<string>)
    ensures AllKeywords(ks)
    ensures |ks| <= Count(raw, ',') + 1
    ensures IsSubsequence(ks, TrimAll(Split(raw, ',')))
    ensures forall p :: p in ks <==> p in TrimAll(Split(raw, ',')) && p != ""
    ensures multiset(ks) == multiset(TrimAll(Split(raw, ',')))["" := 0]
  {
    SplitPiecesFree(raw, ',');
    SplitCount(raw, ',');
    PiecesGiveKeywords(Split(raw, ','));
    DropEmpty(TrimAll(Split(raw, ',')))
  }

  /** Trimmed comma-free pieces, empties dropped, are keywords. */
  lemma PiecesGiveKeywords(pieces: seq<string>)
    requires forall i | 0 <= i < |pieces| :: ',' !in pieces[i]
    ensures AllKeywords(DropEmpty(TrimAll(pieces)))
  {
    var t := TrimAll(pieces);
    var r := DropEmpty(t);
    forall i | 0 <= i < |r|
      ensures IsKeyword(r[i])
    {
      assert r[i] in t;
      var j :| 0 <= j < |t| && t[j] == r[i];
      TrimAddsNothing(pieces[j], ',');
    }
  }

  /** The keyword list as the form shows it. */
  function JoinKeywords(ks: seq<string>): string {
    Join(ks, ", ")
  }

  /** The pieces a ", "-joined list splits into at its commas: the first
      keyword as is, each later one behind a space. */
  function Spaced(ks: seq<string>): (r: seq<string>)
    ensures |r| == |ks|
  {
    seq(|ks|, i requires 0 <= i < |ks| => if i == 0 then ks[0] else " " + ks[i])
  }

  /** Putting `p` in front of a join's first element puts it in front of the
      whole join. */
  lemma JoinPrependFirst(p: string, xs: seq<string>, sep: string)
    requires |xs| > 0
    ensures Join([p + xs[0]] + xs[1..], sep) == p + Join(xs, sep)
  {
    var ys := [p + xs[0]] + xs[1..];
    assert ys[1..] == xs[1..];
  }

  /** Joining with ", " is joining the spaced pieces with ",". */
  lemma {:induction false} JoinSpaced(ks: seq<string>)
    requires |ks| > 0
    ensures Join(ks, ", ") == Join(Spaced(ks), ",")
    decreases |ks|
  {
    if |ks| > 1 {
      var tail := Spaced(ks[1..]);
      JoinSpaced(ks[1..]);
      assert Spaced(ks)[1..] == [" " + tail[0]] + tail[1..];
      JoinPrependFirst(" ", tail, ",");
      calc {
        Join(Spaced(ks), ",");
        ks[0] + "," + Join(Spaced(ks)[1..], ",");
        ks[0] + "," + (" " + Join(ks[1..], ", "));
        Join(ks, ", ");
      }
    }
  }

  lemma {:induction false} DropEmptyOfNonEmpty(xs: seq<string>)
    requires forall i | 0 <= i < |xs| :: xs[i] != ""
    ensures DropEmpty(xs) == xs
    decreases |xs|
  {
    if |xs| > 0 {
      DropEmptyOfNonEmpty(xs[1..]);
    }
  }

  /** A ", "-joined keyword list splits at its commas into the spaced
      keywords. */
  lemma SplitJoinedKeywords(ks: seq<string>)
    requires |ks| > 0 && AllKeywords(ks)
    ensures Split(JoinKeywords(ks), ',') == Spaced(ks)
  {
    var sp := Spaced(ks);
    JoinSpaced(ks);
    forall i | 0 <= i < |sp|
      ensures ',' !in sp[i]
    {
    }
    SplitJoin(sp, ',');
  }

  /** Trimming the spaced keywords gives the keywords back. */
  lemma TrimSpaced(ks: seq<string>)
    requires AllKeywords(ks)
    ensures TrimAll(Spaced(ks)) == ks
  {
    var sp := Spaced(ks);
    forall i | 0 <= i < |sp|
      ensures Trim(sp[i]) == ks[i]
    {
      if i == 0 {
        TrimOfTrimmed(ks[0]);
      } else {
        TrimAfterSpace(ks[i]);
      }
    }
  }

  /** Round trip: a list of keywords shown in the form and saved unchanged
      comes back as the same list. */
  lemma ParseJoinedKeywords(ks: seq<string>)
    requires AllKeywords(ks)
    ensures ParseKeywords(JoinKeywords(ks)) == ks
  {
    if |ks| == 0 {
      assert Split("", ',') == [""];
      assert TrimAll([""]) == [""];
    } else {
      SplitJoinedKeywords(ks);
      TrimSpaced(ks);
      DropEmptyOfNonEmpty(ks);
    }
  }

  /** Parsing is stable: saving what the form shows after a save stores the
      same keywords again. */
  lemma ReparseIsStable(raw: string)
    ensures ParseKeywords(JoinKeywords(ParseKeywords(raw))) == ParseKeywords(raw)
  {
    ParseJoinedKeywords(ParseKeywords(raw));
  }

  /** The keywords field asks only for three characters, so three commas pass
      validation and save an empty keyword list. */
  lemma CommasPassValidationButParseToNothing()
    ensures FormValid(Form("Ab", "A brand kit", ",,,", "fun"))
    ensures ParseKeywords(",,,") == []
  {
    var pieces := Split(",,,", ',');
    assert ",,," == "" + [','] + ",,";
    SplitPrefix("", ',', ",,");
    assert ",," == "" + [','] + ",";
    SplitPrefix("", ',', ",");
    assert "," == "" + [','] + "";
    SplitPrefix("", ',', "");
    assert pieces == ["", "", "", ""];
    TrimOfTrimmed("");
    assert TrimAll(pieces) == ["", "", "", ""];
  }

  /** `dataToSave`: the form's values with only the keywords parsed. */
  function Payload(f: Form): (k: Kit)
    ensures k.brandName == f.brandName && k.brandDescription == f.brandDescription && k.toneOfVoice == f.toneOfVoice
    ensures k.keywords == ParseKeywords(f.keywords)
  {
    Kit(f.brandName, f.brandDescription, ParseKeywords(f.keywords), f.toneOfVoice)
  }

  /** The form the load effect fills in from a stored kit. */
  function FormOf(k: Kit): (f: Form)
    ensures f.brandName == k.brandName && f.brandDescription == k.brandDescription && f.toneOfVoice == k.toneOfVoice
    ensures f.keywords == JoinKeywords(k.keywords)
  {
    Form(k.brandName, k.brandDescription, JoinKeywords(k.keywords), k.toneOfVoice)
  }

  /** Loading a stored kit and saving the form untouched stores the same kit,
      provided its keywords are ones parsing could have produced. */
  lemma LoadThenSaveKeepsKit(k: Kit)
    requires AllKeywords(k.keywords)
    ensures Payload(FormOf(k)) == k
  {
    ParseJoinedKeywords(k.keywords);
  }

  /** The load effect: a found kit replaces the form, none leaves it, and a
      failed read shows an error toast and leaves it. */
  function LoadForm(current: Form, fetched: Result<Option<Kit>>): (r: Loaded)
    ensures fetched.Ok? && fetched.value.Some? ==> r == Loaded(FormOf(fetched.value.value), None)
    ensures fetched.Ok? && fetched.value.None? ==> r == Loaded(current, None)
    ensures fetched.Err? ==> r == Loaded(current, Some(LoadFailedToast))
  {
    match fetched
    case Ok(Some(k)) => Loaded(FormOf(k), None)
    case Ok(None) => Loaded(current, None)
    case Err(_) => Loaded(current, Some(LoadFailedToast))
  }

  /** `onSubmit(values)`: nothing without a user; otherwise the payload is
      written for that user and a toast reports whether the write went
      through. */
  function Submit(user: Option<string>, f: Form, stored: bool): (r: Option<Saved>)
    ensures r.None? <==> user.None?
    ensures r.Some? ==> r.value.uid == user.value && r.value.kit == Payload(f)
    ensures r.Some? ==> r.value.toast == (if stored then SavedToast else SaveFailedToast)
  {
    match user
    case None => None
    case Some(uid) => Some(Saved(uid, Payload(f), if stored then SavedToast else SaveFailedToast))
  }
}
