/**
 * The categories text input: the list is shown joined by ", " and read back
 * by splitting the typed text on every comma and trimming each piece.
 */
module CategoryText {
  import opened JsStrings

  /** `text.split(',').map(c => c.trim())` */
  function ParseCategories(text: string): (tags: seq<string>)
    ensures |tags| == Occurrences(text, ',') + 1
    ensures forall i :: 0 <= i < |tags| ==> IsTrimmed(tags[i]) && ',' !in tags[i]
  {
    TrimEach(Split(text, ','))
  }

  /** `pieces.map(c => c.trim())` */
  function TrimEach(pieces: seq<string>): (tags: seq<string>)
    ensures |tags| == |pieces| && forall i :: 0 <= i < |pieces| ==> tags[i] == Trim(pieces[i])
  {
    if |pieces| == 0 then [] else [Trim(pieces[0])] + TrimEach(pieces[1..])
  }

  /** Trimming each piece of a list with one piece in front. */
  lemma TrimEachCons(x: string, p: seq<string>)
    ensures TrimEach([x] + p) == [Trim(x)] + TrimEach(p)
  {
    assert ([x] + p)[1..] == p;
  }

  /** Lists that differ only in a first piece that trims the same way trim
    * to the same list. */
  lemma TrimEachSameHead(p: seq<string>, q: seq<string>)
    requires |p| == |q| > 0 && Trim(p[0]) == Trim(q[0]) && p[1..] == q[1..]
    ensures TrimEach(p) == TrimEach(q)
  {
  }

  /** `categories.join(', ')`: categories free of commas are shown with
    * exactly one comma between neighbours. */
  function JoinCategories(tags: seq<string>): (shown: string)
    ensures |tags| > 0 && (forall i :: 0 <= i < |tags| ==> ',' !in tags[i]) ==>
      Occurrences(shown, ',') == |tags| - 1
  {
    JoinCommaCount(tags);
    Join(tags, ", ")
  }

  lemma {:induction false} JoinCommaCount(tags: seq<string>)
    ensures |tags| > 0 && (forall i :: 0 <= i < |tags| ==> ',' !in tags[i]) ==>
      Occurrences(Join(tags, ", "), ',') == |tags| - 1
  {
    if |tags| > 0 && (forall i :: 0 <= i < |tags| ==> ',' !in tags[i]) {
      NoOccurrences(tags[0], ',');
      if |tags| > 1 {
        JoinCommaCount(tags[1..]);
        var rest := Join(tags[1..], ", ");
        OccurrencesAppend(tags[0], ", ", ',');
        OccurrencesAppend(tags[0] + ", ", rest, ',');
        assert Join(tags, ", ") == tags[0] + ", " + rest;
      }
    }
  }

  /** A tag the input can hold unchanged through a display round trip. */
  predicate IsPlainTag(tag: string) {
    IsTrimmed(tag) && ',' !in tag
  }

  /** Empty text reads as one empty category, not as no categories. */
  lemma EmptyTextIsOneEmptyTag()
    ensures ParseCategories("") == [""]
  {
    assert Trim("") == "";
  }

  /** So the empty list does not survive being shown and read back. */
  lemma EmptyListDoesNotRoundTrip()
    ensures ParseCategories(JoinCategories([])) != []
  {
    EmptyTextIsOneEmptyTag();
  }

  /** Whitespace in front of the text is lost when it is read. */
  lemma ParseSkipsLeadingSpace(t: string)
    ensures ParseCategories(" " + t) == ParseCategories(t)
  {
    var p, q := Split(t, ','), Split(" " + t, ',');
    assert " " + t == [' '] + t;
    SplitWithLeadingChar(' ', ',', t);
    TrimSkipsLeadingSpace(' ', p[0]);
    TrimEachSameHead(q, p);
  }

  /** A comma-free piece followed by a comma reads as that piece, trimmed,
    * then whatever the rest reads as. */
  lemma ParseAfterPiece(x: string, t: string)
    requires ',' !in x
    ensures ParseCategories(x + "," + t) == [Trim(x)] + ParseCategories(t)
  {
    assert x + "," + t == x + [','] + t;
    SplitAfterPiece(x, ',', t);
    TrimEachCons(x, Split(t, ','));
  }

  /** Text without a comma reads as one category: the text, trimmed. */
  lemma ParseWithoutComma(x: string)
    requires ',' !in x
    ensures ParseCategories(x) == [Trim(x)]
  {
    SplitWithoutSeparator(x, ',');
  }

  /** A plain tag shown in front of ", " reads back as itself, followed by
    * whatever the rest reads as. */
  lemma ParseShownHead(tag: string, rest: string)
    requires IsPlainTag(tag)
    ensures ParseCategories(tag + ", " + rest) == [tag] + ParseCategories(rest)
  {
    assert tag + ", " + rest == tag + "," + (" " + rest);
    ParseAfterPiece(tag, " " + rest);
    ParseSkipsLeadingSpace(rest);
  }

  /** A non-empty list of plain tags is read back exactly as it is shown. */
  lemma {:induction false} ParseJoinRoundTrip(tags: seq<string>)
    requires |tags| > 0
    requires forall i :: 0 <= i < |tags| ==> IsPlainTag(tags[i])
    ensures ParseCategories(JoinCategories(tags)) == tags
  {
    if |tags| == 1 {
      ParseWithoutComma(tags[0]);
    } else {
      assert JoinCategories(tags) == tags[0] + ", " + JoinCategories(tags[1..]);
      ParseShownHead(tags[0], JoinCategories(tags[1..]));
      ParseJoinRoundTrip(tags[1..]);
      assert tags == [tags[0]] + tags[1..];
    }
  }
}
