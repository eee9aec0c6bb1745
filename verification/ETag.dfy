/** Conditional requests (internal/httputils/utils.go): splitting an
    If-None-Match list and matching it weakly against a user's entity tag, per
    sections 8.8.3.2 and 13.1.2 of RFC 9110. */
module ETag {
  import opened Runs
  import opened Text

  /** A non-blank piece of the header, trimmed. */
  function Emit(part: string): seq<string> {
    if Trim(part) == "" then [] else [Trim(part)]
  }

  /** The list items from position `i` on, in the scanner's state there. */
  function ScanFrom(s: string, i: nat, start: nat, inQuote: bool, escape: bool): seq<string>
    requires start <= i <= |s|
    decreases |s| - i
  {
    if i == |s| then Emit(s[start..])
    else if escape then ScanFrom(s, i + 1, start, inQuote, false)
    else if s[i] == '\\' && inQuote then ScanFrom(s, i + 1, start, inQuote, true)
    else if s[i] == '"' then ScanFrom(s, i + 1, start, !inQuote, false)
    else if s[i] == ',' && !inQuote then Emit(s[start..i]) + ScanFrom(s, i + 1, i + 1, inQuote, false)
    else ScanFrom(s, i + 1, start, inQuote, false)
  }

  function Split(s: string): seq<string> {
    ScanFrom(s, 0, 0, false, false)
  }

  method SplitHeaderList(s: string) returns (out: seq<string>)
    ensures out == Split(s)
  {
    out := [];
    var start, i := 0, 0;
    var inQuote, escape := false, false;
    while i < |s|
      invariant 0 <= start <= i <= |s|
      invariant out + ScanFrom(s, i, start, inQuote, escape) == Split(s)
    {
      var c := s[i];
      if escape {
        escape := false;
      } else if c == '\\' && inQuote {
        escape := true;
      } else if c == '"' {
        inQuote := !inQuote;
      } else if c == ',' && !inQuote {
        var part := Trim(s[start..i]);
        if part != "" {
          out := out + [part];
        }
        start := i + 1;
      }
      i := i + 1;
    }
    var last := Trim(s[start..]);
    if last != "" {
      out := out + [last];
    }
  }

  /** The quoted tag without its weakness prefix, if the text is one. */
  function Normalize(v: string): Option<string> {
    var t := Trim(v);
    if t == "" then None
    else
      var u := if |t| >= 2 && (t[0] == 'W' || t[0] == 'w') && t[1] == '/' then Trim(t[2..]) else t;
      if |u| < 2 || u[0] != '"' || u[|u| - 1] != '"' then None else Some(u)
  }

  predicate AnyMatches(items: seq<string>, current: string) {
    exists i :: 0 <= i < |items| && Normalize(items[i]) == Some(current)
  }

  predicate IfNoneMatchMatches(header: string, etag: string) {
    var h := Trim(header);
    if h == "" then false
    else if h == "*" then true
    else
      var cur := Normalize(etag);
      cur.Some? && AnyMatches(Split(h), cur.value)
  }

  function UserOpaque(id: int, version: int): string {
    "u:" + Itoa(id) + ":v:" + Itoa(version)
  }

  function UserETag(id: int, version: int): string {
    "W/\"" + UserOpaque(id, version) + "\""
  }

  // ------------------------------------------------------------------- lists

  datatype Tag = Tag(weak: bool, text: string)

  function Quoted(tag: Tag): string {
    (if tag.weak then "W/" else "") + "\"" + tag.text + "\""
  }

  /** White space allowed around one comma. */
  datatype Pad = Pad(before: string, after: string)

  /** The tags of a header, with the padding of the commas between them. */
  function Header(tags: seq<Tag>, pads: seq<Pad>): string
    requires |tags| == |pads| + 1
    decreases tags
  {
    if pads == [] then Quoted(tags[0])
    else Quoted(tags[0]) + pads[0].before + "," + pads[0].after + Header(tags[1..], pads[1..])
  }

  function Texts(tags: seq<Tag>): seq<string>
    decreases tags
  {
    if tags == [] then [] else [Quoted(tags[0])] + Texts(tags[1..])
  }

  /** RFC 9110 allows no quote inside a tag. */
  predicate NoQuotes(tags: seq<Tag>) {
    forall i :: 0 <= i < |tags| ==> '"' !in tags[i].text
  }

  predicate Blank(pads: seq<Pad>) {
    forall i :: 0 <= i < |pads| ==> AllSpace(pads[i].before) && AllSpace(pads[i].after)
  }

  function TrailingBackslashes(s: string): nat {
    if s != "" && s[|s| - 1] == '\\' then 1 + TrailingBackslashes(s[..|s| - 1]) else 0
  }

  /** The scanner takes a backslash for an escape, so a tag that ends in an odd
      number of them hides its own closing quote. */
  predicate Closes(tag: Tag) {
    TrailingBackslashes(tag.text) % 2 == 0
  }

  predicate AllButLastClose(tags: seq<Tag>) {
    forall i :: 0 <= i < |tags| - 1 ==> Closes(tags[i])
  }

  // -------------------------------------------------------- scanning one tag

  /** Outside quotes, anything but a quote or a comma is passed over. */
  lemma {:induction false} SkipPlain(s: string, i: nat, j: nat, start: nat)
    requires start <= i <= j <= |s| && forall k :: i <= k < j ==> s[k] != '"' && s[k] != ','
    ensures ScanFrom(s, i, start, false, false) == ScanFrom(s, j, start, false, false)
    decreases j - i
  {
    if i < j {
      SkipPlain(s, i + 1, j, start);
    }
  }

  /** The escape state after `text` inside quotes. */
  function Escaped(text: string, escape: bool): bool {
    if text == "" then escape else Escaped(text[1..], !escape && text[0] == '\\')
  }

  lemma {:induction false} SkipText(s: string, i: nat, j: nat, start: nat, escape: bool)
    requires start <= i <= j <= |s| && forall k :: i <= k < j ==> s[k] != '"'
    ensures ScanFrom(s, i, start, true, escape) == ScanFrom(s, j, start, true, Escaped(s[i..j], escape))
    decreases j - i
  {
    if i < j {
      assert s[i..j][1..] == s[i + 1..j];
      SkipText(s, i + 1, j, start, !escape && s[i] == '\\');
    }
  }

  lemma {:induction false} EscapedSnoc(text: string, c: char, escape: bool)
    ensures Escaped(text + [c], escape) <==> !Escaped(text, escape) && c == '\\'
    decreases text
  {
    if text == "" {
      assert (text + [c])[1..] == "";
    } else {
      assert (text + [c])[1..] == text[1..] + [c];
      EscapedSnoc(text[1..], c, !escape && text[0] == '\\');
    }
  }

  lemma {:induction false} EscapedIsOdd(text: string)
    ensures Escaped(text, false) <==> TrailingBackslashes(text) % 2 == 1
    decreases text
  {
    if text != "" {
      var init := text[..|text| - 1];
      assert text == init + [text[|text| - 1]];
      EscapedSnoc(init, text[|text| - 1], false);
      EscapedIsOdd(init);
    }
  }

  /** Where a tag sits in the header: from `i` to `j`. */
  predicate TagAt(s: string, i: nat, j: nat, tag: Tag) {
    i <= j <= |s| && s[i..j] == Quoted(tag) && '"' !in tag.text
  }

  lemma Subslice(s: string, i: nat, j: nat, a: nat, b: nat)
    requires i <= j <= |s| && a <= b <= j - i
    ensures s[i..j][a..b] == s[i + a..i + b]
  {
    forall k | 0 <= k < b - a ensures s[i..j][a..b][k] == s[i + a..i + b][k] {}
  }

  lemma TagParts(s: string, i: nat, j: nat, tag: Tag) returns (open: nat)
    requires TagAt(s, i, j, tag)
    ensures i <= open && open + |tag.text| + 2 == j
    ensures s[open] == '"' && s[j - 1] == '"' && s[open + 1..j - 1] == tag.text
    ensures forall k :: i <= k < open ==> s[k] != '"' && s[k] != ','
    ensures forall k :: open + 1 <= k < j - 1 ==> s[k] != '"'
  {
    var q, pre := s[i..j], if tag.weak then "W/" else "";
    open := i + |pre|;
    assert q == pre + "\"" + tag.text + "\"";
    assert s[open] == q[|pre|] && s[j - 1] == q[|q| - 1];
    assert q[|pre| + 1..|q| - 1] == tag.text;
    Subslice(s, i, j, |pre| + 1, |q| - 1);
    forall k | i <= k < open ensures s[k] != '"' && s[k] != ',' {
      assert s[k] == q[k - i] == pre[k - i];
    }
    forall k | open + 1 <= k < j - 1 ensures s[k] != '"' {
      assert s[k] == s[open + 1..j - 1][k - open - 1];
    }
  }

  /** After a whole tag the scanner is outside quotes if the tag closes, and
      still inside if it does not. */
  lemma ScanTag(s: string, i: nat, j: nat, start: nat, tag: Tag)
    requires start <= i && TagAt(s, i, j, tag)
    ensures ScanFrom(s, i, start, false, false) == ScanFrom(s, j, start, !Closes(tag), false)
  {
    var open := TagParts(s, i, j, tag);
    SkipPlain(s, i, open, start);
    SkipText(s, open + 1, j - 1, start, false);
    EscapedIsOdd(tag.text);
  }

  /** Spaces are neither quotes nor commas. */
  lemma SkipSpace(s: string, i: nat, j: nat, start: nat)
    requires start <= i <= j <= |s| && AllSpace(s[i..j])
    ensures ScanFrom(s, i, start, false, false) == ScanFrom(s, j, start, false, false)
  {
    forall k | i <= k < j ensures s[k] != '"' && s[k] != ',' {
      assert s[k] == s[i..j][k - i];
    }
    SkipPlain(s, i, j, start);
  }

  /** Inside quotes to the end of the header: one last piece. */
  lemma {:induction false} ScanToEnd(s: string, i: nat, start: nat, inQuote: bool)
    requires start <= i <= |s| && AllSpace(s[i..])
    ensures ScanFrom(s, i, start, inQuote, false) == Emit(s[start..])
    decreases |s| - i
  {
    if i < |s| {
      assert s[i] == s[i..][0];
      assert s[i + 1..] == s[i..][1..];
      ScanToEnd(s, i + 1, start, inQuote);
    }
  }

  lemma QuotedTrimmed(tag: Tag)
    ensures Trimmed(Quoted(tag)) && |Quoted(tag)| >= 2
    ensures Quoted(tag)[|Quoted(tag)| - 1] == '"'
  {
  }

  // ------------------------------------------------------- scanning the list

  /** The header from `i` on is `Header(tags, pads)`, and only padding lies
      between `start` and `i`. */
  predicate ListAt(s: string, start: nat, i: nat, tags: seq<Tag>, pads: seq<Pad>) {
    && start <= i <= |s| && AllSpace(s[start..i])
    && |tags| == |pads| + 1 && NoQuotes(tags) && Blank(pads)
    && s[i..] == Header(tags, pads)
  }

  lemma LastPiece(s: string, start: nat, i: nat, tags: seq<Tag>, pads: seq<Pad>)
    requires ListAt(s, start, i, tags, pads) && pads == []
    ensures ScanFrom(s, start, start, false, false) == [Quoted(tags[0])]
  {
    SkipSpace(s, start, i, start);
    assert s[i..|s|] == s[i..];
    ScanTag(s, i, |s|, start, tags[0]);
    ScanToEnd(s, |s|, start, !Closes(tags[0]));
    QuotedTrimmed(tags[0]);
    assert s[start..] == s[start..i] + Quoted(tags[0]) + "";
    TrimPadded(s[start..i], Quoted(tags[0]), "");
  }

  /** Positions of the first tag's end, the comma, and the rest of the list. */
  lemma FirstTag(s: string, start: nat, i: nat, tags: seq<Tag>, pads: seq<Pad>) returns (j: nat, comma: nat, rest: nat)
    requires ListAt(s, start, i, tags, pads) && pads != []
    ensures TagAt(s, i, j, tags[0]) && j <= comma < rest <= |s| && AllSpace(s[j..comma]) && s[comma] == ','
    ensures ListAt(s, comma + 1, rest, tags[1..], pads[1..])
  {
    var q, h := Quoted(tags[0]), Header(tags[1..], pads[1..]);
    var tail := s[i..];
    assert tail == q + pads[0].before + "," + pads[0].after + h;
    j := i + |q|;
    comma := j + |pads[0].before|;
    rest := comma + 1 + |pads[0].after|;
    assert tail[..|q|] == q && s[i..j] == tail[..|q|];
    assert s[j..comma] == tail[|q|..|q| + |pads[0].before|] == pads[0].before;
    assert s[comma] == tail[comma - i] == ',';
    assert s[comma + 1..rest] == tail[comma + 1 - i..rest - i] == pads[0].after;
    assert s[rest..] == tail[rest - i..] == h;
  }

  /** The padded text of the first tag, as the scanner cuts it. */
  lemma FirstCutIsTag(s: string, start: nat, i: nat, j: nat, comma: nat, tag: Tag)
    requires start <= i && TagAt(s, i, j, tag) && j <= comma <= |s| && AllSpace(s[start..i]) && AllSpace(s[j..comma])
    ensures Emit(s[start..comma]) == [Quoted(tag)]
  {
    QuotedTrimmed(tag);
    assert s[start..comma] == s[start..i] + Quoted(tag) + s[j..comma];
    TrimPadded(s[start..i], Quoted(tag), s[j..comma]);
  }

  lemma {:induction false} SplitList(s: string, start: nat, i: nat, tags: seq<Tag>, pads: seq<Pad>)
    requires ListAt(s, start, i, tags, pads) && AllButLastClose(tags)
    ensures ScanFrom(s, start, start, false, false) == Texts(tags)
    decreases |pads|
  {
    if pads == [] {
      LastPiece(s, start, i, tags, pads);
      assert tags[1..] == [];
    } else {
      var j, comma, rest := FirstTag(s, start, i, tags, pads);
      SkipSpace(s, start, i, start);
      ScanTag(s, i, j, start, tags[0]);
      SkipSpace(s, j, comma, start);
      FirstCutIsTag(s, start, i, j, comma, tags[0]);
      SplitList(s, comma + 1, rest, tags[1..], pads[1..]);
    }
  }

  // ------------------------------------------------------- the exact condition

  /** Where the piece being scanned ends: the next comma outside quotes, or the
      end of the header. */
  function CutFrom(s: string, i: nat, inQuote: bool, escape: bool): (m: nat)
    requires i <= |s|
    ensures i <= m <= |s|
    decreases |s| - i
  {
    if i == |s| then i
    else if escape then CutFrom(s, i + 1, inQuote, false)
    else if s[i] == '\\' && inQuote then CutFrom(s, i + 1, inQuote, true)
    else if s[i] == '"' then CutFrom(s, i + 1, !inQuote, false)
    else if s[i] == ',' && !inQuote then i
    else CutFrom(s, i + 1, inQuote, false)
  }

  /** The scanner goes on to the next character unless it cuts at this one. */
  lemma ScanOn(s: string, i: nat, start: nat, inQuote: bool, escape: bool) returns (inQuote': bool, escape': bool)
    requires start <= i < |s| && CutFrom(s, i, inQuote, escape) != i
    ensures CutFrom(s, i, inQuote, escape) == CutFrom(s, i + 1, inQuote', escape')
    ensures ScanFrom(s, i, start, inQuote, escape) == ScanFrom(s, i + 1, start, inQuote', escape')
  {
    inQuote' := if !escape && s[i] == '"' then !inQuote else inQuote;
    escape' := !escape && s[i] == '\\' && inQuote;
  }

  lemma CutHere(s: string, i: nat, start: nat, inQuote: bool, escape: bool)
    requires start <= i <= |s| && CutFrom(s, i, inQuote, escape) == i
    ensures Emit(s[start..i]) <= ScanFrom(s, i, start, inQuote, escape)
  {
    assert s[start..|s|] == s[start..];
  }

  lemma {:induction false} FirstPiece(s: string, i: nat, start: nat, inQuote: bool, escape: bool)
    requires start <= i <= |s|
    ensures Emit(s[start..CutFrom(s, i, inQuote, escape)]) <= ScanFrom(s, i, start, inQuote, escape)
    decreases |s| - i
  {
    if CutFrom(s, i, inQuote, escape) == i {
      CutHere(s, i, start, inQuote, escape);
    } else {
      var inQuote', escape' := ScanOn(s, i, start, inQuote, escape);
      FirstPiece(s, i + 1, start, inQuote', escape');
    }
  }

  lemma {:induction false} TrimRightKeeps(s: string, k: nat)
    requires k < |s| && !IsSpace(s[k])
    ensures k < |TrimRight(s)| && TrimRight(s)[k] == s[k]
    decreases |s|
  {
    if IsSpace(s[|s| - 1]) {
      TrimRightKeeps(s[..|s| - 1], k);
    }
  }

  /** A piece that runs on past its tag and the comma behind it is not the tag. */
  lemma OverrunIsNotTag(s: string, start: nat, i: nat, j: nat, comma: nat, m: nat, tag: Tag)
    requires start <= i && TagAt(s, i, j, tag) && j <= comma < m <= |s| && AllSpace(s[start..i]) && s[comma] == ','
    ensures Emit(s[start..m]) != [] && Emit(s[start..m])[0] != Quoted(tag)
  {
    var q, tail := Quoted(tag), s[i..m];
    QuotedTrimmed(tag);
    assert s[start..m] == s[start..i] + tail;
    TrimLeftPad(s[start..i], tail);
    assert tail[0] == q[0] by {
      assert q == s[i..j] && tail[0] == s[i..j][0];
    }
    assert TrimLeft(tail) == tail;
    assert tail[comma - i] == ',';
    TrimRightKeeps(tail, comma - i);
    assert comma - i >= |q|;
  }

  lemma UnclosedFirstBreaks(s: string, start: nat, i: nat, tags: seq<Tag>, pads: seq<Pad>)
    requires ListAt(s, start, i, tags, pads) && pads != [] && !Closes(tags[0])
    ensures ScanFrom(s, start, start, false, false) != Texts(tags)
  {
    var j, comma, rest := FirstTag(s, start, i, tags, pads);
    SkipSpace(s, start, i, start);
    ScanTag(s, i, j, start, tags[0]);
    PassQuotedSpace(s, j, comma, start);
    var m := CutFrom(s, comma + 1, true, false);
    FirstPiece(s, comma + 1, start, true, false);
    OverrunIsNotTag(s, start, i, j, comma, m, tags[0]);
  }

  /** Inside quotes, spaces and the comma behind them are passed over too. */
  lemma {:induction false} PassQuotedSpace(s: string, j: nat, comma: nat, start: nat)
    requires start <= j <= comma < |s| && AllSpace(s[j..comma]) && s[comma] == ','
    ensures ScanFrom(s, j, start, true, false) == ScanFrom(s, comma + 1, start, true, false)
    decreases comma - j
  {
    if j < comma {
      assert s[j] == s[j..comma][0] && s[j + 1..comma] == s[j..comma][1..];
      PassQuotedSpace(s, j + 1, comma, start);
    }
  }

  lemma {:induction false} UnclosedBreaks(s: string, start: nat, i: nat, tags: seq<Tag>, pads: seq<Pad>)
    requires ListAt(s, start, i, tags, pads) && !AllButLastClose(tags)
    ensures ScanFrom(s, start, start, false, false) != Texts(tags)
    decreases |pads|
  {
    if !Closes(tags[0]) {
      UnclosedFirstBreaks(s, start, i, tags, pads);
    } else {
      var j, comma, rest := FirstTag(s, start, i, tags, pads);
      SkipSpace(s, start, i, start);
      ScanTag(s, i, j, start, tags[0]);
      SkipSpace(s, j, comma, start);
      FirstCutIsTag(s, start, i, j, comma, tags[0]);
      assert !AllButLastClose(tags[1..]) by {
        var k :| 0 <= k < |tags| - 1 && !Closes(tags[k]);
        assert tags[1..][k - 1] == tags[k];
      }
      UnclosedBreaks(s, comma + 1, rest, tags[1..], pads[1..]);
      var more := ScanFrom(s, comma + 1, comma + 1, false, false);
      assert ScanFrom(s, start, start, false, false) == [Quoted(tags[0])] + more;
      assert Texts(tags)[1..] == Texts(tags[1..]);
    }
  }

  /** Splitting a comma-separated list of entity tags returns exactly those tags
      if and only if every tag but the last ends in an even number of
      backslashes, in particular if no tag contains one. Commas inside the quotes
      and white space around the commas make no difference. */
  lemma SplitExact(tags: seq<Tag>, pads: seq<Pad>)
    requires |tags| == |pads| + 1 && NoQuotes(tags) && Blank(pads)
    ensures Split(Header(tags, pads)) == Texts(tags) <==> AllButLastClose(tags)
  {
    var s := Header(tags, pads);
    assert s[0..] == s;
    if AllButLastClose(tags) {
      SplitList(s, 0, 0, tags, pads);
    } else {
      UnclosedBreaks(s, 0, 0, tags, pads);
    }
  }

  /** Whatever the header, every item is trimmed and none is blank. */
  lemma {:induction false} ItemsAreClean(s: string, i: nat, start: nat, inQuote: bool, escape: bool)
    requires start <= i <= |s|
    ensures forall k :: 0 <= k < |ScanFrom(s, i, start, inQuote, escape)| ==>
              var item := ScanFrom(s, i, start, inQuote, escape)[k];
              item != "" && Trimmed(item)
    decreases |s| - i
  {
    if i == |s| {
      var _, _ := TrimParts(s[start..]);
    } else if escape {
      ItemsAreClean(s, i + 1, start, inQuote, false);
    } else if s[i] == '\\' && inQuote {
      ItemsAreClean(s, i + 1, start, inQuote, true);
    } else if s[i] == '"' {
      ItemsAreClean(s, i + 1, start, !inQuote, false);
    } else if s[i] == ',' && !inQuote {
      var _, _ := TrimParts(s[start..i]);
      ItemsAreClean(s, i + 1, i + 1, inQuote, false);
    } else {
      ItemsAreClean(s, i + 1, start, inQuote, false);
    }
  }

  lemma NoBackslashCloses(text: string)
    requires '\\' !in text
    ensures TrailingBackslashes(text) == 0
  {
  }

  // ---------------------------------------------------------------- matching

  lemma NormalizeQuoted(tag: Tag)
    ensures Normalize(Quoted(tag)) == Some("\"" + tag.text + "\"")
  {
    var q, u := Quoted(tag), "\"" + tag.text + "\"";
    QuotedTrimmed(tag);
    TrimTrimmed(q);
    QuotedTrimmed(Tag(false, tag.text));
    assert Quoted(Tag(false, tag.text)) == u;
    TrimTrimmed(u);
    if tag.weak {
      assert q == "W/" + u;
      assert q[0] == 'W' && q[1] == '/' && q[2..] == u;
    } else {
      assert q == u && q[0] == '"';
    }
  }

  lemma {:induction false} TextsAt(tags: seq<Tag>, i: nat)
    ensures |Texts(tags)| == |tags|
    ensures i < |tags| ==> Texts(tags)[i] == Quoted(tags[i])
    decreases tags
  {
    if tags != [] {
      TextsAt(tags[1..], if i > 0 then i - 1 else 0);
    }
  }

  lemma {:induction false} HeaderTrimmed(tags: seq<Tag>, pads: seq<Pad>)
    requires |tags| == |pads| + 1
    ensures var h := Header(tags, pads);
      |h| >= 2 && h[0] == Quoted(tags[0])[0] && h[|h| - 1] == '"'
    decreases pads
  {
    QuotedTrimmed(tags[0]);
    if pads != [] {
      HeaderTrimmed(tags[1..], pads[1..]);
    }
  }

  /** RFC 9110's weak comparison: equal opaque texts, whatever the prefixes. */
  predicate WeaklyEqual(tag: Tag, opaqueText: string) {
    tag.text == opaqueText
  }

  lemma UserETagIsWeakTag(id: int, version: int)
    ensures UserETag(id, version) == Quoted(Tag(true, UserOpaque(id, version)))
  {
  }

  lemma QuotesDoNotMatter(a: string, b: string)
    ensures "\"" + a + "\"" == "\"" + b + "\"" <==> a == b
  {
    if "\"" + a + "\"" == "\"" + b + "\"" {
      var x, y := "\"" + a + "\"", "\"" + b + "\"";
      assert x[1..|x| - 1] == a && y[1..|y| - 1] == b;
    }
  }

  lemma TextsMatch(tags: seq<Tag>, text: string)
    ensures AnyMatches(Texts(tags), "\"" + text + "\"") <==> exists i :: 0 <= i < |tags| && WeaklyEqual(tags[i], text)
  {
    TextsAt(tags, 0);
    forall i: nat | i < |tags|
      ensures Texts(tags)[i] == Quoted(tags[i])
      ensures Normalize(Texts(tags)[i]) == Some("\"" + text + "\"") <==> WeaklyEqual(tags[i], text)
    {
      TextsAt(tags, i);
      NormalizeQuoted(tags[i]);
      QuotesDoNotMatter(tags[i].text, text);
    }
    if i: int :| 0 <= i < |tags| && WeaklyEqual(tags[i], text) {
      assert Normalize(Texts(tags)[i]) == Some("\"" + text + "\"");
    }
  }

  predicate IsQuoted(q: string) {
    |q| >= 2 && q[0] == '"' && q[|q| - 1] == '"'
  }

  /** A weak prefix in either case, with any white space after it, or nothing. */
  predicate IsPrefix(pre: string) {
    pre == "" || (|pre| >= 2 && (pre[0] == 'W' || pre[0] == 'w') && pre[1] == '/' && AllSpace(pre[2..]))
  }

  ghost predicate Denotes(v: string, q: string, a: string, pre: string, b: string) {
    IsQuoted(q) && AllSpace(a) && IsPrefix(pre) && AllSpace(b) && v == a + pre + q + b
  }

  lemma DenotesNormalizes(v: string, q: string, a: string, pre: string, b: string)
    requires Denotes(v, q, a, pre, b)
    ensures Normalize(v) == Some(q)
  {
    var u := pre + q;
    assert v == a + u + b;
    assert !IsSpace(u[0]) && u[|u| - 1] == q[|q| - 1];
    TrimPadded(a, u, b);
    if pre != "" {
      assert u[2..] == pre[2..] + q + "";
      TrimPadded(pre[2..], q, "");
    } else {
      assert u == q;
    }
  }

  lemma AfterPrefix(u: string) returns (pre: string, b: string)
    requires |u| >= 2 && (u[0] == 'W' || u[0] == 'w') && u[1] == '/'
    ensures IsPrefix(pre) && AllSpace(b) && u == pre + Trim(u[2..]) + b
  {
    var a;
    a, b := TrimParts(u[2..]);
    pre := u[..2] + a;
    assert pre[2..] == a;
    assert u == u[..2] + u[2..];
  }

  lemma Regroup(a: string, pre: string, q: string, b': string, b: string)
    ensures a + (pre + q + b') + b == a + pre + q + (b' + b)
  {
  }

  lemma NormalizedDenotes(v: string) returns (a: string, pre: string, b: string)
    requires Normalize(v).Some?
    ensures Denotes(v, Normalize(v).value, a, pre, b)
  {
    var q, u := Normalize(v).value, Trim(v);
    a, b := TrimParts(v);
    pre := "";
    if u[0] == 'W' || u[0] == 'w' {
      var b';
      pre, b' := AfterPrefix(u);
      Regroup(a, pre, q, b', b);
      b := b' + b;
    } else {
      assert v == a + pre + q + b;
    }
  }

  /** A text stands for a quoted tag exactly if it is that tag, maybe after a weak
      prefix, between white space. */
  lemma NormalizeExact(v: string, q: string)
    ensures Normalize(v) == Some(q) <==> exists a, pre, b :: Denotes(v, q, a, pre, b)
  {
    if Normalize(v) == Some(q) {
      var a, pre, b := NormalizedDenotes(v);
    }
    if a, pre, b :| Denotes(v, q, a, pre, b) {
      DenotesNormalizes(v, q, a, pre, b);
    }
  }

  /** A star, white space around it or not, matches every tag; a blank header none. */
  lemma StarAndBlank(a: string, b: string, etag: string)
    requires AllSpace(a) && AllSpace(b)
    ensures IfNoneMatchMatches(a + "*" + b, etag)
    ensures !IfNoneMatchMatches(a + b, etag)
  {
    TrimPadded(a, "*", b);
    SpaceIsBlank(a + b);
  }

  /** White space around the whole header does not matter. */
  lemma HeaderMayBePadded(a: string, h: string, b: string, etag: string)
    requires AllSpace(a) && AllSpace(b)
    ensures IfNoneMatchMatches(a + h + b, etag) == IfNoneMatchMatches(h, etag)
  {
    var x, y := TrimParts(h);
    if Trim(h) == "" {
      assert AllSpace(a + h + b);
      SpaceIsBlank(a + h + b);
    } else {
      assert a + h + b == (a + x) + Trim(h) + (y + b);
      TrimPadded(a + x, Trim(h), y + b);
    }
  }

  /** A user's tag by its parts: weak, quoted, and the two numbers in decimal. */
  lemma UserETagText(id: int, version: int)
    ensures
      var etag := UserETag(id, version);
      && etag == "W/\"u:" + Itoa(id) + ":v:" + Itoa(version) + "\""
      && Canonical(Itoa(id)) && Atoi(Itoa(id)) == id
      && Canonical(Itoa(version)) && Atoi(Itoa(version)) == version
  {
    ItoaCanonical(id);
    ItoaCanonical(version);
  }

  /** The matching law: a list header matches an entity tag, weak or not, exactly
      when some tag of the list has the same opaque text. */
  lemma MatchesAnyTag(tags: seq<Tag>, pads: seq<Pad>, current: Tag)
    requires |tags| == |pads| + 1 && NoQuotes(tags) && Blank(pads) && AllButLastClose(tags)
    ensures IfNoneMatchMatches(Header(tags, pads), Quoted(current))
            <==> exists i :: 0 <= i < |tags| && WeaklyEqual(tags[i], current.text)
  {
    var h := Header(tags, pads);
    HeaderTrimmed(tags, pads);
    assert !IsSpace(h[0]);
    TrimTrimmed(h);
    assert |h| != |"*"|;
    NormalizeQuoted(current);
    SplitExact(tags, pads);
    TextsMatch(tags, current.text);
  }

  /** In particular it matches a user's tag exactly when some tag of the list is
      weakly equal to that. */
  lemma MatchesExact(tags: seq<Tag>, pads: seq<Pad>, id: int, version: int)
    requires |tags| == |pads| + 1 && NoQuotes(tags) && Blank(pads) && AllButLastClose(tags)
    ensures IfNoneMatchMatches(Header(tags, pads), UserETag(id, version))
            <==> exists i :: 0 <= i < |tags| && WeaklyEqual(tags[i], UserOpaque(id, version))
  {
    UserETagIsWeakTag(id, version);
    MatchesAnyTag(tags, pads, Tag(true, UserOpaque(id, version)));
  }

  /** What is not a tag at all is matched by a star only, and what is in the list
      without being a tag matches nothing. */
  lemma OnlyTagsMatch(header: string, etag: string)
    requires IfNoneMatchMatches(header, etag) && Trim(header) != "*"
    ensures
      exists q, i ::
        && Normalize(etag) == Some(q) && 0 <= i < |Split(Trim(header))|
        && Normalize(Split(Trim(header))[i]) == Some(q)
  {
    var q := Normalize(etag).value;
    var items := Split(Trim(header));
    var i :| 0 <= i < |items| && Normalize(items[i]) == Some(q);
  }

  /** Different users or versions have different tags. */
  lemma UserETagInjective(id: int, version: int, id': int, version': int)
    requires UserETag(id, version) == UserETag(id', version')
    ensures id == id' && version == version'
  {
    UserETagIsWeakTag(id, version);
    UserETagIsWeakTag(id', version');
    var x, y := UserETag(id, version), UserETag(id', version');
    var a, b := UserOpaque(id, version), UserOpaque(id', version');
    assert x[3..|x| - 1] == a && y[3..|y| - 1] == b;
    OpaqueInjective(id, version, id', version');
  }

  /** Two texts that agree, each cut at its first colon, agree on both sides. */
  lemma UpToColon(x: string, y: string, x': string, y': string)
    requires x + y == x' + y' && ':' !in x && ':' !in x' && y != "" && y' != "" && y[0] == ':' && y'[0] == ':'
    ensures x == x' && y == y'
  {
    var a, b := x + y, x' + y';
    assert a[|x|] == ':' && b[|x'|] == ':';
    assert forall k :: 0 <= k < |x| ==> a[k] == x[k] && a[k] != ':';
    assert forall k :: 0 <= k < |x'| ==> b[k] == x'[k] && b[k] != ':';
    assert a[..|x|] == x && b[..|x'|] == x' && a[|x|..] == y && b[|x'|..] == y';
  }

  lemma OpaqueParts(a: string, b: string, a': string, b': string)
    requires "u:" + a + ":v:" + b == "u:" + a' + ":v:" + b' && ':' !in a && ':' !in a'
    ensures a == a' && b == b'
  {
    var y, y' := ":v:" + b, ":v:" + b';
    assert ("u:" + a + ":v:" + b)[2..] == a + y && ("u:" + a' + ":v:" + b')[2..] == a' + y';
    UpToColon(a, y, a', y');
    assert y[3..] == b && y'[3..] == b';
  }

  lemma OpaqueInjective(id: int, version: int, id': int, version': int)
    requires UserOpaque(id, version) == UserOpaque(id', version')
    ensures id == id' && version == version'
  {
    ItoaHasNoColon(id);
    ItoaHasNoColon(id');
    OpaqueParts(Itoa(id), Itoa(version), Itoa(id'), Itoa(version'));
    ItoaInjective(id, id');
    ItoaInjective(version, version');
  }

  /** The condition matters: a tag ending in one backslash swallows the next. */
  lemma BackslashSwallowsNextTag()
    ensures Split("\"a\\\",\"b\"") != ["\"a\\\"", "\"b\""]
  {
    var tags, pads := [Tag(false, "a\\"), Tag(false, "b")], [Pad("", "")];
    assert "a\\"[..1] == "a" && TrailingBackslashes("a") == 0 && TrailingBackslashes("a\\") == 1;
    assert !Closes(tags[0]);
    SplitExact(tags, pads);
    assert tags[1..] == [Tag(false, "b")] && pads[1..] == [];
    assert Header(tags[1..], pads[1..]) == "\"b\"";
    assert Header(tags, pads) == "\"a\\\",\"b\"";
    assert Texts(tags[1..][1..]) == [] && Quoted(tags[1..][0]) == "\"b\"" && Quoted(tags[0]) == "\"a\\\"";
    assert Texts(tags) == [Quoted(tags[0])] + Texts(tags[1..]);
  }
}
