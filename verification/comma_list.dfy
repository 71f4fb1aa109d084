/**
 The comma-separated list codec of the recipe forms: a textarea is parsed
 with `split(',').map(x => x.trim())` on submit, and a stored list is
 rendered with `join(', ')` when the update form loads.
 */
module CommaList {
  import opened Text
  import opened Seqs

  /** The character the forms split on. */
  const Comma := ','
  /** The text the update form joins with. */
  const Separator := ", "

  /**
   `text.split(',').map(x => x.trim())`: one piece more than there are
   commas (so an empty textarea gives the one-element list `[""]`), and no
   piece has surrounding whitespace.
   */
  function ParseList(text: string): (r: seq<string>)
    ensures |r| == CountChar(text, Comma) + 1
    ensures forall k :: 0 <= k < |r| ==> IsTrimmed(r[k])
    ensures text == "" ==> r == [""]
    ensures |r| == |Split(text, [Comma])|
    ensures forall k :: 0 <= k < |r| ==> r[k] == Trim(Split(text, [Comma])[k])
  {
    SplitCharCount(text, Comma);
    var pieces := Split(text, [Comma]);
    assert text == "" ==> pieces == [""] by {
      if text == "" {
        SplitWithoutSeparator(text, Comma);
      }
    }
    Map(pieces, Trim)
  }

  /** `list.join(', ')` */
  function RenderList(xs: seq<string>): string {
    Join(xs, Separator)
  }

  /** A character is counted at least once when it occurs. */
  lemma {:induction false} CountCharPositive(s: string, c: char)
    requires c in s
    ensures CountChar(s, c) >= 1
    decreases |s|
  {
    if s[0] != c {
      assert c in s[1..];
      CountCharPositive(s[1..], c);
    }
  }

  /**
   Splitting a rendered list on ',' cuts at each separator: the first piece
   keeps the prefix, every later item comes back behind the separator's
   blank.
   */
  lemma {:induction false} SplitRendered(p: string, xs: seq<string>)
    requires |xs| >= 1 && Comma !in p
    requires forall k :: 0 <= k < |xs| ==> Comma !in xs[k]
    ensures Split(p + RenderList(xs), [Comma]) == [p + xs[0]] + Map(xs[1..], x => " " + x)
    decreases |xs|
  {
    if |xs| == 1 {
      SplitWithoutSeparator(p + xs[0], Comma);
    } else {
      var rest := Join(xs[1..], Separator);
      assert p + RenderList(xs) == (p + xs[0]) + [Comma] + (" " + rest);
      SplitAfterPiece(p + xs[0], Comma, " " + rest);
      SplitRendered(" ", xs[1..]);
      assert xs[1..][1..] == xs[2..];
      assert [" " + xs[1]] + Map(xs[2..], x => " " + x) == Map(xs[1..], x => " " + x);
    }
  }

  /**
   Loading a list into the update form and submitting it unchanged gives
   the same list back, when the list is non-empty and no item contains a
   comma or surrounding whitespace.
   */
  lemma RenderParseRoundTrip(xs: seq<string>)
    requires |xs| >= 1
    requires forall k :: 0 <= k < |xs| ==> Comma !in xs[k] && IsTrimmed(xs[k])
    ensures ParseList(RenderList(xs)) == xs
  {
    SplitRendered("", xs);
    assert "" + RenderList(xs) == RenderList(xs);
    var pieces := Split(RenderList(xs), [Comma]);
    forall k | 1 <= k < |xs| ensures Trim(pieces[k]) == xs[k] {
      assert pieces[k] == " " + xs[k];
      TrimLeadingBlank(xs[k]);
    }
  }

  /** Rendering an empty list and parsing it back yields one empty item. */
  lemma EmptyListComesBackAsBlank()
    ensures ParseList(RenderList([])) == [""]
  {
  }

  lemma {:induction false} RenderedCommas(xs: seq<string>)
    requires |xs| >= 1
    ensures CountChar(RenderList(xs), Comma) >= |xs| - 1
    decreases |xs|
  {
    if |xs| > 1 {
      RenderedCommas(xs[1..]);
      CountCharAppend(xs[0] + Separator, Join(xs[1..], Separator), Comma);
      CountCharAppend(xs[0], Separator, Comma);
    }
  }

  /**
   An item that contains a comma makes the rendered text hold more commas
   than there are separators.
   */
  lemma {:induction false} RenderedCommasWithCommaItem(xs: seq<string>, k: nat)
    requires k < |xs| && Comma in xs[k]
    ensures CountChar(RenderList(xs), Comma) >= |xs|
    decreases |xs|
  {
    if |xs| == 1 {
      CountCharPositive(xs[0], Comma);
    } else {
      CountCharAppend(xs[0] + Separator, Join(xs[1..], Separator), Comma);
      CountCharAppend(xs[0], Separator, Comma);
      if k == 0 {
        CountCharPositive(xs[0], Comma);
        RenderedCommas(xs[1..]);
      } else {
        RenderedCommasWithCommaItem(xs[1..], k - 1);
      }
    }
  }

  /** An item containing a comma is split into several on resubmit, so the list grows. */
  lemma CommaItemBreaksRoundTrip(xs: seq<string>, k: nat)
    requires k < |xs| && Comma in xs[k]
    ensures |ParseList(RenderList(xs))| > |xs|
  {
    RenderedCommasWithCommaItem(xs, k);
  }
}
