/** Newline framing of the socket stream: chunks in, trimmed non-empty lines out. */
module LineFraming {

  /** The white space and line terminators that String.prototype.trim removes. */
  predicate IsSpace(c: char) {
    || '\t' <= c <= '\r' || c == ' ' || c == '\U{00A0}' || c == '\U{1680}' || '\U{2000}' <= c <= '\U{200A}'
    || c == '\U{2028}' || c == '\U{2029}' || c == '\U{202F}' || c == '\U{205F}' || c == '\U{3000}' || c == '\U{FEFF}'
  }

  /** The same, by code point. */
  lemma SpaceIs(c: char)
    ensures IsSpace(c) <==>
      || c as int in [9, 10, 11, 12, 13, 32, 160, 5760, 8232, 8233, 8239, 8287, 12288, 65279]
      || 8192 <= c as int <= 8202
  {
  }

  function TrimStart(s: string): (t: string)
    ensures |t| <= |s|
  {
    if s != "" && IsSpace(s[0]) then TrimStart(s[1..]) else s
  }

  function TrimEnd(s: string): (t: string)
    ensures |t| <= |s|
  {
    if s != "" && IsSpace(s[|s| - 1]) then TrimEnd(s[..|s| - 1]) else s
  }

  function Trim(s: string): string {
    TrimEnd(TrimStart(s))
  }

  ghost predicate AllSpace(s: string) {
    forall i :: 0 <= i < |s| ==> IsSpace(s[i])
  }

  /** Neither end is white space. */
  predicate Tight(s: string) {
    s != "" ==> !IsSpace(s[0]) && !IsSpace(s[|s| - 1])
  }

  lemma NotAllSpace(s: string, i: nat)
    requires i < |s| && !IsSpace(s[i])
    ensures !AllSpace(s)
  {
  }

  lemma {:induction false} TrimStartIs(s: string) returns (a: nat)
    ensures a <= |s| && TrimStart(s) == s[a..] && AllSpace(s[..a]) && (a < |s| ==> !IsSpace(s[a]))
  {
    hide IsSpace;
    a := 0;
    if s != "" && IsSpace(s[0]) {
      a := TrimStartIs(s[1..]);
      assert s[1..][a..] == s[a + 1..] && s[..a + 1] == [s[0]] + s[1..][..a];
      a := a + 1;
    }
  }

  lemma {:induction false} TrimEndIs(s: string) returns (b: nat)
    ensures b <= |s| && TrimEnd(s) == s[..b] && AllSpace(s[b..]) && (b > 0 ==> !IsSpace(s[b - 1]))
  {
    hide IsSpace;
    b := |s|;
    if s != "" && IsSpace(s[|s| - 1]) {
      var init := s[..|s| - 1];
      b := TrimEndIs(init);
      assert init[..b] == s[..b] && s[b..] == init[b..] + [s[|s| - 1]];
    }
  }

  /** Trimming cuts white space off both ends and nothing else, down to a text that has none there; what is
      left is empty exactly when all was white space. */
  lemma TrimIs(s: string) returns (a: nat, b: nat)
    ensures a <= b <= |s| && Trim(s) == s[a..b] && AllSpace(s[..a]) && AllSpace(s[b..])
    ensures Tight(Trim(s)) && (Trim(s) == "" <==> AllSpace(s))
  {
    hide IsSpace;
    a := TrimStartIs(s);
    var n := TrimEndIs(s[a..]);
    b := a + n;
    assert s[a..][..n] == s[a..b] && s[a..][n..] == s[b..];
    if a < |s| {
      assert s[a..][0] == s[a];
      NotAllSpace(s[a..], 0);
      NotAllSpace(s, a);
      assert s[a..][n..] == s[a..] || n > 0;
    } else {
      assert s[..a] == s;
    }
  }

  /** The first newline, or -1. */
  function IndexOf(s: string): (i: int)
    ensures -1 <= i < |s|
    ensures i >= 0 ==> s[i] == '\n' && '\n' !in s[..i]
    ensures i < 0 ==> '\n' !in s
  {
    if s == "" then -1
    else if s[0] == '\n' then 0
    else
      var i := IndexOf(s[1..]);
      assert i >= 0 ==> s[..i + 1] == [s[0]] + s[1..][..i];
      assert s == [s[0]] + s[1..];
      if i < 0 then -1 else i + 1
  }

  /** The newline-terminated pieces of a text, untrimmed. */
  function Pieces(s: string): seq<string>
    decreases |s|
  {
    var i := IndexOf(s);
    if i < 0 then [] else [s[..i]] + Pieces(s[i + 1..])
  }

  /** What follows the last newline. */
  function Tail(s: string): (t: string)
    ensures '\n' !in t && |t| <= |s|
    decreases |s|
  {
    var i := IndexOf(s);
    if i < 0 then s else Tail(s[i + 1..])
  }

  function Cleaned(pieces: seq<string>): seq<string> {
    if pieces == [] then []
    else (if Trim(pieces[0]) != "" then [Trim(pieces[0])] else []) + Cleaned(pieces[1..])
  }

  /** The lines of a text: its terminated pieces, trimmed, the empty ones dropped. */
  function Lines(s: string): seq<string> {
    Cleaned(Pieces(s))
  }

  /** `t` is `s` without the white space at its ends. */
  ghost predicate IsTrimmed(s: string, t: string) {
    Tight(t) && exists a, b :: 0 <= a <= b <= |s| && t == s[a..b] && AllSpace(s[..a]) && AllSpace(s[b..])
  }

  /** The lines are, in order, the pieces at positions `at` without the white space at their ends, and those
      are exactly the pieces that hold anything but white space. */
  ghost predicate LinesAt(pieces: seq<string>, lines: seq<string>, at: seq<nat>) {
    && |at| == |lines|
    && (forall j :: 0 <= j < |at| ==> at[j] < |pieces| && lines[j] != "" && IsTrimmed(pieces[at[j]], lines[j]))
    && (forall i, j :: 0 <= i < j < |at| ==> at[i] < at[j])
    && (forall i :: 0 <= i < |pieces| ==> (i in at <==> !AllSpace(pieces[i])))
  }

  ghost predicate AreLines(pieces: seq<string>, lines: seq<string>) {
    exists at :: LinesAt(pieces, lines, at)
  }

  lemma TrimmedIs(s: string)
    ensures IsTrimmed(s, Trim(s)) && (Trim(s) == "" <==> AllSpace(s))
  {
    hide IsSpace, Tight, Trim, AllSpace;
    var a, b := TrimIs(s);
  }

  lemma {:induction false} CleanedAt(pieces: seq<string>) returns (at: seq<nat>)
    ensures LinesAt(pieces, Cleaned(pieces), at)
  {
    hide AllSpace, Trim, IsTrimmed;
    if pieces == [] {
      at := [];
    } else {
      hide LinesAt;
      var rest := CleanedAt(pieces[1..]);
      TrimmedIs(pieces[0]);
      var later := seq(|rest|, j requires 0 <= j < |rest| => rest[j] + 1);
      var lines := Cleaned(pieces[1..]);
      if Trim(pieces[0]) != "" {
        PieceKept(pieces, lines, rest, later, Trim(pieces[0]));
        at := [0] + later;
      } else {
        PieceDropped(pieces, lines, rest, later);
        assert [] + lines == lines;
        at := later;
      }
    }
  }

  ghost predicate OneLater(rest: seq<nat>, later: seq<nat>) {
    |later| == |rest| && forall j :: 0 <= j < |rest| ==> later[j] == rest[j] + 1
  }

  lemma PieceDropped(pieces: seq<string>, lines: seq<string>, rest: seq<nat>, later: seq<nat>)
    requires pieces != [] && LinesAt(pieces[1..], lines, rest) && OneLater(rest, later) && AllSpace(pieces[0])
    ensures LinesAt(pieces, lines, later)
  {
    hide AllSpace, IsTrimmed;
    LaterPositions(rest, later, pieces);
    forall j | 0 <= j < |later|
      ensures later[j] < |pieces| && lines[j] != "" && IsTrimmed(pieces[later[j]], lines[j])
    {
      assert pieces[1..][rest[j]] == pieces[later[j]];
    }
  }

  lemma PieceKept(pieces: seq<string>, lines: seq<string>, rest: seq<nat>, later: seq<nat>, t: string)
    requires pieces != [] && LinesAt(pieces[1..], lines, rest) && OneLater(rest, later) && !AllSpace(pieces[0])
    requires t != "" && IsTrimmed(pieces[0], t)
    ensures LinesAt(pieces, [t] + lines, [0] + later)
  {
    hide AllSpace, IsTrimmed;
    var at, all := [0] + later, [t] + lines;
    LaterPositions(rest, later, pieces);
    forall j | 0 <= j < |at|
      ensures at[j] < |pieces| && all[j] != "" && IsTrimmed(pieces[at[j]], all[j])
    {
      if j > 0 {
        assert at[j] == rest[j - 1] + 1 && all[j] == lines[j - 1];
        assert pieces[1..][rest[j - 1]] == pieces[at[j]];
      }
    }
    forall i | 0 <= i < |pieces|
      ensures i in at <==> !AllSpace(pieces[i])
    {
      OrLater(later, i);
    }
  }

  lemma OrLater(later: seq<nat>, i: nat)
    ensures i in [0] + later <==> i == 0 || i in later
  {
  }

  lemma LaterPositions(rest: seq<nat>, later: seq<nat>, pieces: seq<string>)
    requires pieces != [] && OneLater(rest, later)
    requires forall i :: 0 <= i < |pieces| - 1 ==> (i in rest <==> !AllSpace(pieces[1..][i]))
    ensures forall i :: 1 <= i < |pieces| ==> (i in later <==> !AllSpace(pieces[i]))
    ensures 0 !in later
  {
    hide AllSpace;
    forall i | 1 <= i < |pieces|
      ensures i in later <==> !AllSpace(pieces[i])
    {
      assert pieces[1..][i - 1] == pieces[i];
      if i in later {
        var j :| 0 <= j < |later| && later[j] == i;
        assert rest[j] == i - 1;
      }
      if i - 1 in rest {
        var j :| 0 <= j < |rest| && rest[j] == i - 1;
        assert later[j] == i;
      }
    }
  }

  /** The lines of a text, by position in its pieces. */
  lemma LinesAre(s: string)
    ensures AreLines(Pieces(s), Lines(s))
  {
    hide LinesAt, Pieces, Cleaned;
    var at := CleanedAt(Pieces(s));
  }

  function Rejoined(pieces: seq<string>): string {
    if pieces == [] then "" else pieces[0] + "\n" + Rejoined(pieces[1..])
  }

  /** One step of the cutting. */
  lemma CutOnce(s: string)
    ensures var i := IndexOf(s);
      if i < 0 then Pieces(s) == [] && Tail(s) == s
      else Pieces(s) == [s[..i]] + Pieces(s[i + 1..]) && Tail(s) == Tail(s[i + 1..])
  {
  }

  /** Pieces and tail are the text, cut at every newline and nowhere else. */
  lemma {:induction false} PiecesRejoin(s: string)
    ensures Rejoined(Pieces(s)) + Tail(s) == s
    ensures forall i :: 0 <= i < |Pieces(s)| ==> '\n' !in Pieces(s)[i]
    decreases |s|
  {
    hide Pieces, Tail, IndexOf;
    var i := IndexOf(s);
    CutOnce(s);
    if i >= 0 {
      var rest := s[i + 1..];
      PiecesRejoin(rest);
      assert s == s[..i] + "\n" + rest;
      assert ([s[..i]] + Pieces(rest))[1..] == Pieces(rest);
    }
  }

  lemma {:induction false} IndexOfConcat(a: string, b: string)
    ensures IndexOf(a) >= 0 ==> IndexOf(a + b) == IndexOf(a)
  {
    if a != "" && a[0] != '\n' {
      assert (a + b)[1..] == a[1..] + b;
      IndexOfConcat(a[1..], b);
    }
  }

  /** Framing a text in two parts: the second part continues the tail of the first. */
  lemma {:induction false} FrameConcat(a: string, b: string)
    ensures Pieces(a + b) == Pieces(a) + Pieces(Tail(a) + b)
    ensures Tail(a + b) == Tail(Tail(a) + b)
    decreases |a|
  {
    hide Pieces, Tail, IndexOf;
    var i := IndexOf(a);
    CutOnce(a);
    if i >= 0 {
      IndexOfConcat(a, b);
      CutOnce(a + b);
      assert (a + b)[..i] == a[..i] && (a + b)[i + 1..] == a[i + 1..] + b;
      FrameConcat(a[i + 1..], b);
      var rest := Pieces(a[i + 1..]);
      var more := Pieces(Tail(a) + b);
      assert [a[..i]] + (rest + more) == ([a[..i]] + rest) + more;
    } else {
      assert [] + Pieces(a + b) == Pieces(a + b);
    }
  }

  lemma {:induction false} CleanedConcat(x: seq<string>, y: seq<string>)
    ensures Cleaned(x + y) == Cleaned(x) + Cleaned(y)
  {
    if x == [] {
      assert x + y == y;
    } else {
      assert (x + y)[1..] == x[1..] + y;
      CleanedConcat(x[1..], y);
    }
  }

  lemma LinesConcat(a: string, b: string)
    ensures Lines(a + b) == Lines(a) + Lines(Tail(a) + b)
  {
    FrameConcat(a, b);
    CleanedConcat(Pieces(a), Pieces(Tail(a) + b));
  }

  lemma NextLine(s: string)
    requires IndexOf(s) >= 0
    ensures var i := IndexOf(s);
      && Lines(s) == (if Trim(s[..i]) != "" then [Trim(s[..i])] else []) + Lines(s[i + 1..])
      && Tail(s) == Tail(s[i + 1..])
  {
    hide Trim, Pieces, Tail, IndexOf;
    var i := IndexOf(s);
    var rest := Pieces(s[i + 1..]);
    CutOnce(s);
    assert ([s[..i]] + rest)[1..] == rest;
  }

  lemma NoLines(s: string)
    ensures IndexOf(s) < 0 ==> Lines(s) == [] && Tail(s) == s
  {
  }

  function Joined(chunks: seq<string>): string {
    if chunks == [] then "" else Joined(chunks[..|chunks| - 1]) + chunks[|chunks| - 1]
  }

  lemma NothingFramed()
    ensures Joined([]) == "" && Lines("") == [] && Tail("") == ""
  {
  }

  lemma NothingJoined()
    ensures Joined([]) == ""
  {
  }

  lemma JoinedSnoc(chunks: seq<string>, chunk: string)
    ensures Joined(chunks + [chunk]) == Joined(chunks) + chunk
  {
    assert (chunks + [chunk])[..|chunks|] == chunks;
  }

  /** Every line begins and ends with something else than white space. */
  predicate AllTight(lines: seq<string>) {
    forall j :: 0 <= j < |lines| ==> lines[j] != "" && Tight(lines[j])
  }

  lemma LinesAreTight(pieces: seq<string>, lines: seq<string>)
    requires AreLines(pieces, lines)
    ensures AllTight(lines)
  {
    hide IsSpace, AllSpace;
    var at :| LinesAt(pieces, lines, at);
    forall j | 0 <= j < |lines|
      ensures lines[j] != "" && Tight(lines[j])
    {
      assert at[j] < |pieces|;
    }
  }

  /** Joining from the front is joining from the back. */
  lemma {:induction false} JoinedFront(chunks: seq<string>)
    requires chunks != []
    ensures Joined(chunks) == chunks[0] + Joined(chunks[1..])
  {
    hide Joined;
    var n := |chunks| - 1;
    var init, last := chunks[..n], chunks[n];
    assert chunks == init + [last];
    JoinedSnoc(init, last);
    NothingJoined();
    if n == 0 {
      assert chunks[1..] == [] && init == [];
      assert "" + last == last + "";
    } else {
      JoinedFront(init);
      JoinedSnoc(init[1..], last);
      assert chunks[1..] == init[1..] + [last];
      assert (init[0] + Joined(init[1..])) + last == init[0] + (Joined(init[1..]) + last);
    }
  }

  /** The per-socket buffer and its data handler. */
  class Framer {
    var buffer: string

    constructor ()
      ensures buffer == ""
    {
      buffer := "";
    }

    method OnData(chunk: string) returns (lines: seq<string>)
      modifies this
      ensures lines == Lines(old(buffer) + chunk)
      ensures buffer == Tail(old(buffer) + chunk)
      ensures AreLines(Pieces(old(buffer) + chunk), lines)
      ensures AllTight(lines)
    {
      hide Pieces, Tail, IndexOf, Cleaned, Trim, IsSpace, AreLines, AllSpace, Lines, AllTight, Tight;
      buffer := buffer + chunk;
      ghost var all := buffer;
      lines := [];
      var idx := IndexOf(buffer);
      assert [] + Lines(all) == Lines(all);
      while idx >= 0
        invariant idx == IndexOf(buffer)
        invariant Tail(buffer) == Tail(all) && lines + Lines(buffer) == Lines(all)
        decreases |buffer|
      {
        var tickString := Trim(buffer[..idx]);
        var rest := buffer[idx + 1..];
        NextLine(buffer);
        assert lines + ([tickString] + Lines(rest)) == (lines + [tickString]) + Lines(rest);
        if tickString != "" {
          lines := lines + [tickString];
        }
        buffer := rest;
        idx := IndexOf(buffer);
      }
      NoLines(buffer);
      assert lines + [] == lines;
      LinesAre(all);
      LinesAreTight(Pieces(all), lines);
    }

    /** Whatever the chunks, the emitted lines are those of the whole stream and the buffer is its
        unterminated tail. */
    method OnAll(chunks: seq<string>) returns (lines: seq<string>)
      requires buffer == ""
      modifies this
      ensures lines == Lines(Joined(chunks)) && buffer == Tail(Joined(chunks))
      ensures AreLines(Pieces(Joined(chunks)), lines)
    {
      hide Lines, Tail, Joined, Pieces, AreLines, AllTight;
      lines := [];
      NothingFramed();
      assert chunks[..0] == [];
      var i := 0;
      while i < |chunks|
        invariant 0 <= i <= |chunks|
        invariant lines == Lines(Joined(chunks[..i])) && buffer == Tail(Joined(chunks[..i]))
      {
        assert chunks[..i + 1] == chunks[..i] + [chunks[i]];
        JoinedSnoc(chunks[..i], chunks[i]);
        var more := OnData(chunks[i]);
        LinesConcat(Joined(chunks[..i]), chunks[i]);
        FrameConcat(Joined(chunks[..i]), chunks[i]);
        lines := lines + more;
        i := i + 1;
      }
      assert chunks[..|chunks|] == chunks;
      LinesAre(Joined(chunks));
    }
  }
}
