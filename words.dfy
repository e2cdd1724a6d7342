/**
 * `String.prototype.split(' ')` on a display name, and the first and last pieces that the
 * user builder falls back to. Splitting always yields at least one piece (possibly empty).
 */
module Words {

  /** The pieces of `s` between single spaces, as `s.split(' ')` returns them. */
  function SplitOnSpace(s: string): (r: seq<string>)
    ensures |r| >= 1
    ensures forall i :: 0 <= i < |r| ==> ' ' !in r[i]
    decreases |s|
  {
    if s == [] then [""]
    else
      var rest := SplitOnSpace(s[1..]);
      if s[0] == ' ' then [""] + rest
      else [[s[0]] + rest[0]] + rest[1..]
  }

  /** `parts.join(' ')`. */
  function JoinWithSpace(parts: seq<string>): (s: string)
    requires |parts| >= 1
    ensures parts[0] <= s
    decreases |parts|
  {
    if |parts| == 1 then parts[0] else parts[0] + " " + JoinWithSpace(parts[1..])
  }

  /** Joining the pieces with single spaces gives back the original string. */
  lemma {:induction false} JoinSplit(s: string)
    ensures JoinWithSpace(SplitOnSpace(s)) == s
    decreases |s|
  {
    if s != [] {
      var rest := SplitOnSpace(s[1..]);
      JoinSplit(s[1..]);
      if s[0] == ' ' {
        assert SplitOnSpace(s) == [""] + rest;
        assert s == [' '] + s[1..];
      } else {
        var r := SplitOnSpace(s);
        assert r == [[s[0]] + rest[0]] + rest[1..];
        if |rest| == 1 {
          assert s == [s[0]] + rest[0];
        } else {
          assert r[1..] == rest[1..];
          assert JoinWithSpace(rest) == rest[0] + " " + JoinWithSpace(rest[1..]);
          assert s == [s[0]] + s[1..];
        }
      }
    }
  }

  /** Splitting pieces that hold no space, after joining them, gives back the pieces. */
  lemma {:induction false} SplitJoin(parts: seq<string>)
    requires |parts| >= 1
    requires forall i :: 0 <= i < |parts| ==> ' ' !in parts[i]
    ensures SplitOnSpace(JoinWithSpace(parts)) == parts
    decreases |parts|, |parts[0]|
  {
    var w := parts[0];
    if w == [] {
      if |parts| > 1 {
        SplitJoin(parts[1..]);
        var j := JoinWithSpace(parts);
        assert j == [' '] + JoinWithSpace(parts[1..]);
        assert j[1..] == JoinWithSpace(parts[1..]);
        assert parts == [""] + parts[1..];
      }
    } else {
      var tail := [w[1..]] + parts[1..];
      assert w[1..] == tail[0];
      forall i | 0 <= i < |tail| ensures ' ' !in tail[i] {
        if i == 0 {
          assert forall c :: c in w[1..] ==> c in w;
        } else {
          assert tail[i] == parts[i];
        }
      }
      SplitJoin(tail);
      var j := JoinWithSpace(parts);
      if |parts| == 1 {
        assert j == w;
        assert JoinWithSpace(tail) == w[1..];
      } else {
        assert JoinWithSpace(tail) == w[1..] + " " + JoinWithSpace(tail[1..]);
        assert tail[1..] == parts[1..];
        assert j == w + " " + JoinWithSpace(parts[1..]);
      }
      assert j[0] == w[0] && j[1..] == JoinWithSpace(tail);
      assert w[0] != ' ' by { assert w[0] in w; }
      assert [w[0]] + w[1..] == w;
      assert parts == [[w[0]] + w[1..]] + tail[1..];
    }
  }

  /** `s.split(' ')[0]`. */
  function FirstWord(s: string): (w: string)
    ensures w <= s && ' ' !in w
    ensures |w| == |s| || s[|w|] == ' '
  {
    FirstPieceFacts(s);
    SplitOnSpace(s)[0]
  }

  /** `s.split(' ').slice(-1)[0]`. */
  function LastWord(s: string): (w: string)
    ensures ' ' !in w && |w| <= |s| && s[|s| - |w|..] == w
    ensures |w| == |s| || s[|s| - |w| - 1] == ' '
  {
    LastPieceFacts(s);
    var parts := SplitOnSpace(s);
    parts[|parts| - 1]
  }

  /** The first piece is a prefix of `s` that ends at a space or at the end of `s`. */
  lemma {:induction false} FirstPieceFacts(s: string)
    ensures var w := SplitOnSpace(s)[0]; w <= s && (|w| == |s| || s[|w|] == ' ')
    decreases |s|
  {
    if s != [] && s[0] != ' ' {
      FirstPieceFacts(s[1..]);
      var w0 := SplitOnSpace(s[1..])[0];
      assert SplitOnSpace(s)[0] == [s[0]] + w0;
      assert s == [s[0]] + s[1..];
      if |w0| < |s[1..]| {
        assert s[1..][|w0|] == s[|w0| + 1];
      }
    }
  }

  /** The last piece is a suffix of `s` that starts after a space or at the start of `s`. */
  lemma {:induction false} LastPieceFacts(s: string)
    ensures var r := SplitOnSpace(s); var w := r[|r| - 1];
      |w| <= |s| && s[|s| - |w|..] == w && (|w| == |s| || s[|s| - |w| - 1] == ' ')
    decreases |s|
  {
    if s != [] {
      LastPieceFacts(s[1..]);
      var rest := SplitOnSpace(s[1..]);
      var r := SplitOnSpace(s);
      var last := rest[|rest| - 1];
      var t := s[1..];
      assert s == [s[0]] + t;
      if s[0] != ' ' && |rest| == 1 {
        JoinSplit(t);
        assert r == [[s[0]] + t];
      } else {
        assert r[|r| - 1] == last;
        assert t[|t| - |last|..] == s[|s| - |last|..];
        if s[0] != ' ' && |last| == |t| {
          NoSpaceOnePiece(t);
        }
        if |last| < |t| {
          assert t[|t| - |last| - 1] == s[|s| - |last| - 1];
        }
      }
    }
  }

  /** A string without spaces splits into itself alone. */
  lemma {:induction false} NoSpaceOnePiece(s: string)
    requires ' ' !in s
    ensures SplitOnSpace(s) == [s]
    decreases |s|
  {
    if s != [] {
      assert forall c :: c in s[1..] ==> c in s;
      NoSpaceOnePiece(s[1..]);
      assert s[0] in s;
      assert s == [s[0]] + s[1..];
    }
  }
}
