/** Text preprocessing before YAML decoding: Go template stripping and document splitting
    (processFile in pkg/loader/loader.go). */
module Manifests {
  import opened Sequences
  import opened Values
  import opened Models
  import opened Loader

  // ----- template expressions: two opening braces, a non-empty run without '}', two closing braces

  const PLACEHOLDER := "placeholder-value"

  /** The half-open range from start to end is a match of the template pattern. */
  ghost predicate IsTemplate(s: string, start: nat, end: nat) {
    && start + 5 <= end <= |s|
    && s[start] == '{' && s[start + 1] == '{' && s[end - 2] == '}' && s[end - 1] == '}'
    && forall k :: start + 2 <= k < end - 2 ==> s[k] != '}'
  }

  /** Index of the first '}' at or after the position, or the length of the text. */
  function FirstClose(s: string, from: nat): (i: nat)
    requires from <= |s|
    ensures from <= i <= |s| && (i < |s| ==> s[i] == '}') && forall k :: from <= k < i ==> s[k] != '}'
    decreases |s| - from
  {
    if from == |s| || s[from] == '}' then from else FirstClose(s, from + 1)
  }

  /** Where the match that begins the text ends; there is at most one. */
  function LeadingTemplate(s: string): (end: Option<nat>)
    ensures end.Some? ==> IsTemplate(s, 0, end.value)
    ensures end.None? ==> forall e :: !IsTemplate(s, 0, e)
  {
    if |s| < 5 || s[0] != '{' || s[1] != '{' then None
    else
      var close := FirstClose(s, 2);
      if 3 <= close && close + 1 < |s| && s[close + 1] == '}' then Some(close + 2) else None
  }

  /** Replaces leftmost, non-overlapping matches. */
  function StripTemplates(s: string): string {
    if s == "" then ""
    else
      match LeadingTemplate(s)
      case Some(end) => PLACEHOLDER + StripTemplates(s[end..])
      case None => [s[0]] + StripTemplates(s[1..])
  }

  /** The first '}' of the text is followed by another one. */
  ghost predicate ClosesDouble(s: string) {
    var i := FirstClose(s, 0);
    i + 1 < |s| && s[i + 1] == '}'
  }

  lemma {:induction false} FirstCloseTail(s: string, c: char)
    requires c != '}'
    ensures FirstClose([c] + s, 0) == FirstClose(s, 0) + 1
  {
    var t := [c] + s;
    var i, j := FirstClose(s, 0), FirstClose(t, 0);
    assert forall k :: 0 <= k < |s| ==> t[k + 1] == s[k];
    assert i < |s| ==> t[i + 1] == '}';
    assert 0 < j;
    assert j < |t| ==> s[j - 1] == '}';
  }

  /** Stripping keeps the first character when it is not part of a match. */
  lemma {:induction false} StrippedHead(s: string, c: char)
    requires StripTemplates(s) != "" && StripTemplates(s)[0] == c && c in {'{', '}'}
    ensures s != "" && s[0] == c && LeadingTemplate(s) == None && StripTemplates(s)[1..] == StripTemplates(s[1..])
  {
  }

  lemma {:induction false} DoubleCloseReflects(s: string)
    requires ClosesDouble(StripTemplates(s))
    ensures ClosesDouble(s)
  {
    var t := StripTemplates(s);
    if LeadingTemplate(s).Some? {
      var end := LeadingTemplate(s).value;
      assert FirstClose(s, 0) == end - 2;
    } else if s[0] == '}' {
      var rest := StripTemplates(s[1..]);
      assert t == ['}'] + rest && FirstClose(t, 0) == 0 && rest[0] == '}';
      StrippedHead(s[1..], '}');
    } else {
      assert s == [s[0]] + s[1..];
      FirstCloseTail(StripTemplates(s[1..]), s[0]);
      FirstCloseTail(s[1..], s[0]);
      DoubleCloseReflects(s[1..]);
    }
  }

  lemma {:induction false} TemplateInTail(head: string, tail: string, start: nat, end: nat)
    requires IsTemplate(head + tail, start, end) && |head| <= start
    ensures IsTemplate(tail, start - |head|, end - |head|)
  {
    var t := head + tail;
    forall k | start - |head| + 2 <= k < end - |head| - 2 ensures tail[k] != '}' {
      assert tail[k] == t[k + |head|];
    }
  }

  /** Replacing all template expressions leaves none, and no new one arises from what is put together. */
  lemma {:induction false} NoTemplateLeft(s: string, start: nat, end: nat)
    ensures !IsTemplate(StripTemplates(s), start, end)
    decreases s
  {
    var t := StripTemplates(s);
    if s != "" && IsTemplate(t, start, end) {
      match LeadingTemplate(s) {
        case Some(e) =>
          var rest := StripTemplates(s[e..]);
          assert t == PLACEHOLDER + rest;
          assert start >= |PLACEHOLDER| by {
            assert '{' !in PLACEHOLDER;
          }
          var n := |PLACEHOLDER|;
          TemplateInTail(PLACEHOLDER, rest, start, end);
          NoTemplateLeft(s[e..], start - n, end - n);
        case None =>
          var rest := StripTemplates(s[1..]);
          assert t == [s[0]] + rest;
          if start > 0 {
            TemplateInTail([s[0]], rest, start, end);
            NoTemplateLeft(s[1..], start - 1, end - 1);
          } else {
            LeadingTemplateReflects(s, end);
          }
      }
    }
  }

  /** A match at the front of a character and a stripped rest was already there before stripping. */
  lemma {:induction false} LeadingTemplateReflects(s: string, end: nat)
    requires s != "" && IsTemplate([s[0]] + StripTemplates(s[1..]), 0, end)
    ensures exists e :: IsTemplate(s, 0, e)
  {
    var t := [s[0]] + StripTemplates(s[1..]);
    var u := s[1..];
    assert t[1..] == StripTemplates(u) && t[1] == '{';
    StrippedHead(u, '{');
    var v := u[1..];
    var rest := StripTemplates(v);
    assert rest == t[2..];
    assert FirstClose(rest, 0) == end - 4 by {
      assert forall k :: 0 <= k < end - 4 ==> rest[k] == t[k + 2];
      assert rest[end - 4] == '}' && rest[end - 3] == '}';
    }
    DoubleCloseReflects(v);
    var close := FirstClose(v, 0);
    assert v[0] != '}';
    assert v == s[2..];
    assert IsTemplate(s, 0, close + 4);
  }

  lemma {:induction false} TemplateOfTail(s: string, start: nat, end: nat)
    requires s != ""
    ensures IsTemplate(s[1..], start, end) ==> IsTemplate(s, start + 1, end + 1)
  {
    assert forall k :: 0 <= k < |s| - 1 ==> s[1..][k] == s[k + 1];
    assert forall k :: start + 3 <= k < end - 1 && k < |s| ==> s[k] == s[1..][k - 1];
  }

  /** Text without template expressions is left alone, so stripping twice is stripping once. */
  lemma {:induction false} StripIsIdentityWithout(s: string)
    requires forall i, e :: !IsTemplate(s, i, e)
    ensures StripTemplates(s) == s
  {
    if s == "" {
    } else {
      assert LeadingTemplate(s) == None;
      forall i: nat, e: nat ensures !IsTemplate(s[1..], i, e) {
        TemplateOfTail(s, i, e);
      }
      StripIsIdentityWithout(s[1..]);
      assert s == [s[0]] + s[1..];
    }
  }

  lemma {:induction false} StripIdempotent(s: string)
    ensures StripTemplates(StripTemplates(s)) == StripTemplates(s)
  {
    forall i, e ensures !IsTemplate(StripTemplates(s), i, e) {
      NoTemplateLeft(s, i, e);
    }
    StripIsIdentityWithout(StripTemplates(s));
  }

  /** The first template expression of a text is replaced by the placeholder, and the text after it stripped. */
  lemma {:induction false} TemplateReplaced(before: string, body: string, after: string)
    requires '{' !in before && body != "" && '}' !in body
    ensures StripTemplates(before + "{{" + body + "}}" + after)
            == before + "placeholder-value" + StripTemplates(after)
  {
    var t := "{{" + body + "}}" + after;
    assert before + "{{" + body + "}}" + after == before + t;
    TemplateInFront(body, after);
    PlainInFront(before, t);
    assert before + ("placeholder-value" + StripTemplates(after))
        == before + "placeholder-value" + StripTemplates(after);
  }

  lemma {:induction false} TemplateInFront(body: string, after: string)
    requires body != "" && '}' !in body
    ensures StripTemplates("{{" + body + "}}" + after) == "placeholder-value" + StripTemplates(after)
  {
    var t := "{{" + body + "}}" + after;
    var end := |body| + 4;
    assert forall k :: 2 <= k < end - 2 ==> t[k] == body[k - 2];
    assert IsTemplate(t, 0, end);
    assert FirstClose(t, 2) == end - 2;
    assert t[end..] == after;
  }

  lemma {:induction false} PlainInFront(before: string, s: string)
    requires '{' !in before
    ensures StripTemplates(before + s) == before + StripTemplates(s)
  {
    if before == "" {
      assert before + s == s;
    } else {
      assert (before + s)[0] == before[0] && (before + s)[1..] == before[1..] + s;
      assert before[0] in before;
      PlainInFront(before[1..], s);
      assert before == [before[0]] + before[1..];
      assert [before[0]] + (before[1..] + StripTemplates(s)) == before + StripTemplates(s);
    }
  }

  // ----- document separators: lines of "---", optionally followed by a comment

  predicate Blank(c: char) {
    c == ' ' || c == '\t'
  }

  function SkipBlanks(s: string): string {
    if s != "" && Blank(s[0]) then SkipBlanks(s[1..]) else s
  }

  predicate IsSeparator(line: string) {
    && HasPrefix(line, "---")
    && var rest := line[3..];
       SkipBlanks(rest) == "" || (SkipBlanks(rest)[0] == '#' && Blank(rest[0]))
  }

  predicate Blanks(s: string) {
    forall c :: c in s ==> c == ' ' || c == '\t'
  }

  /** A separator is three dashes, followed by blanks alone or by at least one blank and a comment. */
  ghost predicate SeparatorForm(line: string, blanks: string, comment: string) {
    && Blanks(blanks) && line == "---" + blanks + comment
    && (comment == "" || (comment[0] == '#' && blanks != ""))
  }

  lemma {:induction false} SkippedBlanks(s: string)
    ensures exists blanks :: Blanks(blanks) && s == blanks + SkipBlanks(s)
    ensures SkipBlanks(s) != "" ==> !Blank(SkipBlanks(s)[0])
  {
    if s != "" && Blank(s[0]) {
      SkippedBlanks(s[1..]);
      var blanks :| Blanks(blanks) && s[1..] == blanks + SkipBlanks(s[1..]);
      assert Blanks([s[0]] + blanks) && s == [s[0]] + blanks + SkipBlanks(s);
    } else {
      assert s == "" + SkipBlanks(s);
    }
  }

  lemma {:induction false} SkipAll(blanks: string, rest: string)
    requires Blanks(blanks) && (rest == "" || !Blank(rest[0]))
    ensures SkipBlanks(blanks + rest) == rest
  {
    if blanks != "" {
      assert blanks[0] in blanks;
      assert (blanks + rest)[1..] == blanks[1..] + rest;
      assert forall c :: c in blanks[1..] ==> c in blanks;
      SkipAll(blanks[1..], rest);
    } else {
      assert blanks + rest == rest;
    }
  }

  lemma {:induction false} SeparatorMeaning(line: string)
    ensures IsSeparator(line) <==> exists blanks, comment :: SeparatorForm(line, blanks, comment)
  {
    if IsSeparator(line) {
      var rest := line[3..];
      SkippedBlanks(rest);
      var blanks :| Blanks(blanks) && rest == blanks + SkipBlanks(rest);
      assert line == "---" + rest && "---" + blanks + SkipBlanks(rest) == "---" + rest;
      assert SeparatorForm(line, blanks, SkipBlanks(rest));
    }
    if blanks, comment :| SeparatorForm(line, blanks, comment) {
      assert "---" + blanks + comment == "---" + (blanks + comment);
      assert line[..3] == "---" && line[3..] == blanks + comment;
      SkipAll(blanks, comment);
      assert comment != "" ==> blanks[0] in blanks;
    }
  }

  /** Index of the first line break, or the length of the text. */
  function LineEnd(s: string): (i: nat)
    ensures i <= |s| && '\n' !in s[..i] && (i < |s| ==> s[i] == '\n')
  {
    if s == "" || s[0] == '\n' then 0 else LineEnd(s[1..]) + 1
  }

  function Lines(s: string): seq<string> {
    var i := LineEnd(s);
    if i == |s| then [s] else [s[..i]] + Lines(s[i + 1..])
  }

  /** The pieces between separator lines, and the separators themselves. */
  datatype Split = Split(pieces: seq<string>, separators: seq<string>)

  function SplitDocs(s: string): (r: Split)
    ensures |r.pieces| == |r.separators| + 1
  {
    var i := LineEnd(s);
    var line := s[..i];
    if i == |s| then
      (if IsSeparator(line) then Split(["", ""], [line]) else Split([line], []))
    else
      var rest := SplitDocs(s[i + 1..]);
      if IsSeparator(line) then Split(["", "\n" + rest.pieces[0]] + rest.pieces[1..], [line] + rest.separators)
      else Split([line + "\n" + rest.pieces[0]] + rest.pieces[1..], rest.separators)
  }

  /** The text that pieces and separators make when put back together. */
  function Interleave(pieces: seq<string>, separators: seq<string>): string
    requires |pieces| == |separators| + 1
  {
    if separators == [] then pieces[0]
    else pieces[0] + separators[0] + Interleave(pieces[1..], separators[1..])
  }

  lemma {:induction false} InterleaveHead(prefix: string, pieces: seq<string>, separators: seq<string>)
    requires |pieces| == |separators| + 1
    ensures Interleave([prefix + pieces[0]] + pieces[1..], separators) == prefix + Interleave(pieces, separators)
  {
    var longer := [prefix + pieces[0]] + pieces[1..];
    if separators != [] {
      assert longer[1..] == pieces[1..];
      assert (prefix + pieces[0]) + separators[0] + Interleave(pieces[1..], separators[1..])
          == prefix + (pieces[0] + separators[0] + Interleave(pieces[1..], separators[1..]));
    }
  }

  lemma {:induction false} InterleaveSeparator(line: string, pieces: seq<string>, separators: seq<string>)
    requires |pieces| == |separators| + 1
    ensures Interleave([""] + pieces, [line] + separators) == line + Interleave(pieces, separators)
  {
    var ps, ss := [""] + pieces, [line] + separators;
    assert ps[1..] == pieces && ss[1..] == separators && ss != [];
    assert ps[0] + ss[0] == line;
  }

  lemma {:induction false} InterleaveLine(line: string, pieces: seq<string>, separators: seq<string>)
    requires |pieces| == |separators| + 1
    ensures Interleave(["", "\n" + pieces[0]] + pieces[1..], [line] + separators)
            == line + "\n" + Interleave(pieces, separators)
  {
    var tail := ["\n" + pieces[0]] + pieces[1..];
    InterleaveHead("\n", pieces, separators);
    InterleaveSeparator(line, tail, separators);
    assert [""] + tail == ["", "\n" + pieces[0]] + pieces[1..];
    assert line + ("\n" + Interleave(pieces, separators)) == line + "\n" + Interleave(pieces, separators);
  }

  lemma {:induction false} InterleaveLast(line: string)
    ensures Interleave(["", ""], [line]) == line && Interleave([line], []) == line
  {
    InterleaveSeparator(line, [""], []);
    assert [""] + [""] == ["", ""] && [line] + [] == [line] && line + "" == line;
  }

  /** Splitting loses nothing. */
  lemma {:induction false} SplitRebuilds(s: string)
    ensures Interleave(SplitDocs(s).pieces, SplitDocs(s).separators) == s
  {
    hide IsSeparator, Interleave;
    var i := LineEnd(s);
    var line := s[..i];
    if i == |s| {
      InterleaveLast(line);
    } else {
      var rest := SplitDocs(s[i + 1..]);
      SplitRebuilds(s[i + 1..]);
      InterleaveLine(line, rest.pieces, rest.separators);
      InterleaveHead(line + "\n", rest.pieces, rest.separators);
      assert s == line + "\n" + s[i + 1..];
    }
  }

  lemma {:induction false} LinesCons(line: string, s: string)
    requires '\n' !in line
    ensures Lines(line + "\n" + s) == [line] + Lines(s)
  {
    var t := line + "\n" + s;
    LineEndAfter(line, s);
    assert t[..|line|] == line && t[|line| + 1..] == s;
  }

  lemma {:induction false} LineEndAfter(line: string, s: string)
    requires '\n' !in line
    ensures LineEnd(line + "\n" + s) == |line|
  {
    var t := line + "\n" + s;
    var i := LineEnd(t);
    assert t[|line|] == '\n';
    assert forall k :: 0 <= k < |line| ==> t[k] == line[k];
    assert forall k :: 0 <= k < i ==> t[..i][k] == t[k];
  }

  lemma {:induction false} LinesOfLine(line: string)
    requires '\n' !in line
    ensures Lines(line) == [line]
  {
  }

  ghost predicate NoSeparatorIn(piece: string) {
    forall line :: line in Lines(piece) ==> !IsSeparator(line)
  }

  /** No piece holds a separator line, and every separator is one. */
  lemma {:induction false} SplitComplete(s: string)
    ensures forall p :: p in SplitDocs(s).pieces ==> NoSeparatorIn(p)
    ensures forall line :: line in SplitDocs(s).separators ==> IsSeparator(line)
  {
    hide IsSeparator, NoSeparatorIn;
    var i := LineEnd(s);
    var line := s[..i];
    LinePieces(line);
    if i < |s| {
      var rest := SplitDocs(s[i + 1..]);
      SplitComplete(s[i + 1..]);
      assert rest.pieces[0] in rest.pieces;
      assert forall p :: p in rest.pieces[1..] ==> p in rest.pieces;
      LineBefore(line, rest.pieces[0]);
    }
  }

  lemma {:induction false} LinePieces(line: string)
    requires '\n' !in line
    ensures NoSeparatorIn("") && (!IsSeparator(line) ==> NoSeparatorIn(line))
  {
    hide IsSeparator;
    LinesOfLine("");
    LinesOfLine(line);
    EmptyLine();
  }

  lemma {:induction false} LineBefore(line: string, piece: string)
    requires '\n' !in line && NoSeparatorIn(piece)
    ensures NoSeparatorIn("\n" + piece) && (!IsSeparator(line) ==> NoSeparatorIn(line + "\n" + piece))
  {
    hide IsSeparator;
    EmptyLine();
    LinesCons(line, piece);
    LinesCons("", piece);
    assert "" + "\n" + piece == "\n" + piece;
  }

  lemma {:induction false} EmptyLine()
    ensures !IsSeparator("")
  {
  }

  // ----- processing one file

  /** Trims a piece and decodes it; None for blank, undecodable and null documents. */
  type Decoder = string -> Option<Doc>

  function DocsIn(decode: Decoder, file: string): string -> seq<Leaf> {
    piece => match decode(piece) case None => [] case Some(doc) => Leaves(Map(doc), file)
  }

  /** The leaves a file contributes; nothing when it has too many documents. */
  function FileLeaves(content: string, file: string, maxDocs: nat, decode: Decoder): seq<Leaf> {
    var pieces := SplitDocs(StripTemplates(content)).pieces;
    if |pieces| > maxDocs then [] else FlatMap(pieces, DocsIn(decode, file))
  }

  /** A leaf comes from a file exactly when the file has not too many documents and the leaf is one of a
      document that decodes. */
  lemma {:induction false} FileMeaning(content: string, file: string, maxDocs: nat, decode: Decoder, leaf: Leaf)
    ensures var split := SplitDocs(StripTemplates(content));
            leaf in FileLeaves(content, file, maxDocs, decode) <==>
            && |split.separators| < maxDocs
            && exists piece :: piece in split.pieces && decode(piece).Some?
                               && leaf in Leaves(Map(decode(piece).value), file)
  {
    hide FlatMap, SplitDocs, StripTemplates, Leaves;
    var pieces := SplitDocs(StripTemplates(content)).pieces;
    InFlatMap(pieces, DocsIn(decode, file), leaf);
  }

  method ProcessFile(content: string, file: string, maxDocs: nat, decode: Decoder, result: LoadedResources)
    returns (ok: bool)
    modifies result
    ensures ok <==> |SplitDocs(StripTemplates(content)).separators| < maxDocs
    ensures result.Contents() == PutAll(old(result.Contents()), FileLeaves(content, file, maxDocs, decode))
  {
    hide StripTemplates, FlatMap, Leaves;
    var pieces := SplitDocs(StripTemplates(content)).pieces;
    FlatMapNone(DocsIn(decode, file));
    assert pieces[..0] == [];
    if |pieces| > maxDocs {
      return false;
    }
    ghost var before := result.Contents();
    for i := 0 to |pieces|
      invariant result.Contents() == PutAll(before, FlatMap(pieces[..i], DocsIn(decode, file)))
    {
      ghost var done := FlatMap(pieces[..i], DocsIn(decode, file));
      FlatMapSnoc(pieces[..i], pieces[i], DocsIn(decode, file));
      assert pieces[..i + 1] == pieces[..i] + [pieces[i]];
      PutAllAppend(before, done, DocsIn(decode, file)(pieces[i]));
      match decode(pieces[i]) {
        case None => assert done + [] == done;
        case Some(doc) => Categorize(doc, file, result);
      }
    }
    assert pieces[..|pieces|] == pieces;
    return true;
  }
}
