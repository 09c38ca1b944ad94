/** Line framing of the qtest reply stream: what cutting lines off a buffer with `strchr` yields,
    against the stream split at its newlines. */
module Lines {
  /** Bytes of the stream before the first newline or NUL. */
  function Scan(s: string): (n: nat)
    ensures n <= |s| && (forall i | 0 <= i < n :: s[i] != '\n' && s[i] != '\0')
    ensures n < |s| ==> s[n] == '\n' || s[n] == '\0'
  {
    if s == "" || s[0] == '\n' || s[0] == '\0' then 0 else 1 + Scan(s[1..])
  }

  /** `strchr(s, '\n')`: a NUL ends the search. */
  predicate HasLine(s: string) { Scan(s) < |s| && s[Scan(s)] == '\n' }

  function LineOf(s: string): string { s[..Scan(s)] }

  function After(s: string): string
    requires HasLine(s)
  {
    s[Scan(s) + 1..]
  }

  lemma ScanUnique(s: string, n: nat)
    requires n <= |s| && (forall i | 0 <= i < n :: s[i] != '\n' && s[i] != '\0')
    requires n < |s| ==> s[n] == '\n' || s[n] == '\0'
    ensures Scan(s) == n
  {
  }

  /** A line that is complete stays the same whatever arrives behind it. */
  lemma MoreBehind(s: string, more: string)
    requires HasLine(s)
    ensures HasLine(s + more) && LineOf(s + more) == LineOf(s) && After(s + more) == After(s) + more
  {
    ScanUnique(s + more, Scan(s));
  }

  /** Every line that can be taken off a stream, in order, and what is left when none can. */
  function Drain(s: string): (r: (seq<string>, string))
    ensures !HasLine(r.1)
    decreases |s|
  {
    if HasLine(s) then
      var (ls, rest) := Drain(After(s));
      ([LineOf(s)] + ls, rest)
    else ([], s)
  }

  // The stream split at its newlines, whatever other bytes it holds.

  predicate NewlineFree(s: string) { '\n' !in s }

  predicate AllNewlineFree(ls: seq<string>) {
    forall i | 0 <= i < |ls| :: NewlineFree(ls[i])
  }

  function Join(ls: seq<string>): string {
    if ls == [] then "" else ls[0] + "\n" + Join(ls[1..])
  }

  /** `ls` are the complete lines of `s`, and `tail` is what follows the last newline. */
  predicate SplitsTo(s: string, ls: seq<string>, tail: string) {
    s == Join(ls) + tail && AllNewlineFree(ls) && NewlineFree(tail)
  }

  lemma Assoc(a: string, b: string, c: string)
    ensures (a + b) + c == a + (b + c)
  {
  }

  lemma JoinCons(l: string, ls: seq<string>)
    ensures Join([l] + ls) == l + "\n" + Join(ls)
  {
    assert ([l] + ls)[1..] == ls;
  }

  lemma {:induction false} JoinAppend(a: seq<string>, b: seq<string>)
    ensures Join(a + b) == Join(a) + Join(b)
  {
    if a == [] {
      assert a + b == b;
    } else {
      assert (a + b)[1..] == a[1..] + b;
      JoinAppend(a[1..], b);
    }
  }

  /** Where the first newline is decides the first line. */
  lemma FirstNewline(a: string, x: string, b: string, y: string)
    requires NewlineFree(a) && NewlineFree(b) && a + "\n" + x == b + "\n" + y
    ensures a == b && x == y
  {
    var s := a + "\n" + x;
    assert s[|a|] == '\n' && s[|b|] == '\n';
    assert forall i | 0 <= i < |a| :: s[i] == a[i];
    assert forall i | 0 <= i < |b| :: s[i] == b[i];
    assert |a| == |b|;
    assert a == s[..|a|] && b == s[..|b|] && x == s[|a| + 1..] && y == s[|b| + 1..];
  }

  lemma HasNewline(a: string, x: string)
    ensures '\n' in a + "\n" + x
  {
    assert (a + "\n" + x)[|a|] == '\n';
  }

  /** A stream has at most one split. If one list of lines is cut short by an arbitrary rest, it is
      the front of the other. */
  lemma {:induction false} SplitUnique(ls: seq<string>, rest: string, ms: seq<string>, tail: string)
    requires Join(ls) + rest == Join(ms) + tail
    requires AllNewlineFree(ls) && AllNewlineFree(ms) && NewlineFree(tail)
    ensures |ls| <= |ms| && ls == ms[..|ls|] && rest == Join(ms[|ls|..]) + tail
    decreases |ls|
  {
    if ls == [] {
      assert ms[0..] == ms;
    } else {
      var x := Join(ls[1..]) + rest;
      Assoc(ls[0] + "\n", Join(ls[1..]), rest);
      if ms == [] {
        HasNewline(ls[0], x);
      } else {
        var y := Join(ms[1..]) + tail;
        Assoc(ms[0] + "\n", Join(ms[1..]), tail);
        FirstNewline(ls[0], x, ms[0], y);
        SplitUnique(ls[1..], rest, ms[1..], tail);
        assert ms[1..][..|ls| - 1] == ms[1..|ls|] && ms[1..][|ls| - 1..] == ms[|ls|..];
      }
    }
  }

  lemma CutLine(s: string)
    requires HasLine(s)
    ensures s == LineOf(s) + "\n" + After(s) && NewlineFree(LineOf(s))
  {
  }

  /** Lines taken off a stream put back in front of what is left give the stream. */
  lemma {:induction false} DrainRebuilds(s: string)
    ensures Join(Drain(s).0) + Drain(s).1 == s && AllNewlineFree(Drain(s).0)
    decreases |s|
  {
    if HasLine(s) {
      var (ls, rest) := Drain(After(s));
      DrainRebuilds(After(s));
      CutLine(s);
      JoinCons(LineOf(s), ls);
      Assoc(LineOf(s) + "\n", Join(ls), rest);
    }
  }

  /** No newline comes after a NUL. */
  predicate NulsLast(s: string) {
    forall i, j | 0 <= i < j < |s| && s[i] == '\0' :: s[j] != '\n'
  }

  lemma {:induction false} DrainLeft(s: string)
    ensures NewlineFree(Drain(s).1) <==> NulsLast(s)
    decreases |s|
  {
    var n := Scan(s);
    if HasLine(s) {
      DrainLeft(After(s));
      NulsAfter(s);
    } else if n < |s| {
      assert s[n] == '\0';
      if NewlineFree(s) {
        assert forall j | 0 <= j < |s| :: s[j] in s;
      } else {
        var j :| 0 <= j < |s| && s[j] == '\n';
        assert n < j;
      }
    } else {
      assert s == s[..n];
    }
  }

  lemma NulsAfter(s: string)
    requires HasLine(s)
    ensures NulsLast(s) <==> NulsLast(After(s))
  {
    var n := Scan(s);
    if NulsLast(After(s)) {
      forall i, j | 0 <= i < j < |s| && s[i] == '\0' ensures s[j] != '\n' {
        assert i > n && After(s)[i - n - 1] == '\0' && After(s)[j - n - 1] == s[j];
      }
    }
    if NulsLast(s) {
      forall i, j | 0 <= i < j < |After(s)| && After(s)[i] == '\0' ensures After(s)[j] != '\n' {
        assert s[i + n + 1] == '\0' && s[j + n + 1] == After(s)[j];
      }
    }
  }

  /** Taking lines off a stream splits it at its newlines exactly when no newline comes after a NUL;
      in particular for every stream without NULs. Otherwise it stops at the line with the NUL. */
  lemma FramingIsSplitting(s: string, ls: seq<string>, tail: string)
    requires SplitsTo(s, ls, tail)
    ensures Drain(s) == (ls, tail) <==> NulsLast(s)
    ensures Drain(s).0 <= ls
  {
    DrainRebuilds(s);
    DrainLeft(s);
    SplitUnique(Drain(s).0, Drain(s).1, ls, tail);
    if NulsLast(s) {
      SplitUnique(ls, tail, Drain(s).0, Drain(s).1);
      var (front, rest) := Drain(s);
      assert front == ls && ls[|ls|..] == [];
      assert rest == tail;
    }
  }

  /** A newline behind a NUL never ends a line: this stream has a line, and none comes out. */
  lemma NulStops()
    ensures SplitsTo("\0\n", ["\0"], "") && Drain("\0\n") == ([], "\0\n")
  {
    assert Scan("\0\n") == 0;
    JoinCons("\0", []);
    assert ["\0"] + [] == ["\0"];
  }

  /** What the client has returned so far is the front of the split of everything that was or will be
      received, whichever chunks it comes in. */
  lemma ReturnedLines(returned: seq<string>, rx: string, more: string, ls: seq<string>, tail: string)
    requires AllNewlineFree(returned) && SplitsTo(Join(returned) + rx + more, ls, tail)
    ensures returned <= ls && rx + more == Join(ls[|returned|..]) + tail
  {
    Assoc(Join(returned), rx, more);
    SplitUnique(returned, rx + more, ls, tail);
  }
}
