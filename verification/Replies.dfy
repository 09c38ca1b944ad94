/** Replies to qtest commands: the first line that is not an IRQ notification, and the interrupt
    levels that the notifications before it leave behind. */
module Replies {
  import opened Lines

  const MAX_IRQ := 256

  /** `g_strsplit(line, " ", 0)`: no word at all for an empty line, and an empty word between two
      spaces. */
  function Words(line: string): seq<string> {
    if line == "" then [] else Cut(line)
  }

  function Cut(line: string): (ws: seq<string>)
    ensures ws != []
  {
    if line == "" then [""]
    else if line[0] == ' ' then [""] + Cut(line[1..])
    else
      var ws := Cut(line[1..]);
      [[line[0]] + ws[0]] + ws[1..]
  }

  function Unwords(ws: seq<string>): string
    requires ws != []
  {
    if |ws| == 1 then ws[0] else ws[0] + " " + Unwords(ws[1..])
  }

  predicate SpaceFree(ws: seq<string>) {
    forall i | 0 <= i < |ws| :: ' ' !in ws[i]
  }

  /** The words have no spaces and, with single spaces put back between them, give the line. */
  lemma {:induction false} CutRejoins(line: string)
    ensures Unwords(Cut(line)) == line && SpaceFree(Cut(line))
  {
    if line != "" {
      var more := line[1..];
      CutRejoins(more);
      var ws := Cut(more);
      if line[0] == ' ' {
        assert ([""] + ws)[1..] == ws;
        assert "" + " " + more == line;
      } else {
        var w := [line[0]] + ws[0];
        assert ([w] + ws[1..])[1..] == ws[1..];
        assert [line[0]] + more == line;
        if |ws| > 1 {
          assert w + " " + Unwords(ws[1..]) == [line[0]] + (ws[0] + " " + Unwords(ws[1..]));
        }
      }
    }
  }

  /** What `qemu_strtol` makes of a word in base 0; None is an error. */
  type Strtol = string -> Number

  datatype Number = Value(n: int) | NotANumber

  predicate IsIrq(line: string) {
    Words(line) != [] && Words(line)[0] == "IRQ"
  }

  /** The IRQ a notification names. */
  function IrqOf(line: string, strtol: Strtol): Number {
    if IsIrq(line) && |Words(line)| >= 3 then strtol(Words(line)[2]) else NotANumber
  }

  predicate GoodIrq(line: string, strtol: Strtol) {
    var r := IrqOf(line, strtol);
    r.Value? && 0 <= r.n < MAX_IRQ
  }

  /** Every word but `raise` lowers the line. */
  predicate Raises(line: string) { |Words(line)| >= 2 && Words(line)[1] == "raise" }

  predicate GoodReply(line: string, expected: nat) {
    Words(line) != [] && Words(line)[0] == "OK" && expected <= |Words(line)|
  }

  type Levels = s: seq<bool> | |s| == MAX_IRQ witness seq(MAX_IRQ, _ => false)

  function Notify(levels: Levels, line: string, strtol: Strtol): Levels
    requires GoodIrq(line, strtol)
  {
    levels[IrqOf(line, strtol).n := Raises(line)]
  }

  /** Success, or a failed assertion or broken pipe, which ends the program. */
  datatype Outcome = Args(words: seq<string>, levels: Levels, rest: string) | Aborted

  /** `qtest_rsp_args` on a stream. */
  function Rsp(s: string, levels: Levels, expected: nat, strtol: Strtol): Outcome
    decreases |s|
  {
    if !HasLine(s) then Aborted
    else
      var line := LineOf(s);
      if IsIrq(line) then
        if GoodIrq(line, strtol) then Rsp(After(s), Notify(levels, line, strtol), expected, strtol) else Aborted
      else if GoodReply(line, expected) then Args(Words(line), levels, After(s))
      else Aborted
  }

  // The meaning of a reply, in terms of the lines of the stream.

  /** Notifications at the front of `ls`. */
  function Leading(ls: seq<string>): (k: nat)
    ensures k <= |ls| && (forall i | 0 <= i < k :: IsIrq(ls[i])) && (k < |ls| ==> !IsIrq(ls[k]))
  {
    if ls == [] || !IsIrq(ls[0]) then 0 else 1 + Leading(ls[1..])
  }

  /** The level of one IRQ after some notifications: what the last one that names it says. */
  function LevelAfter(ls: seq<string>, irq: nat, before: bool, strtol: Strtol): bool {
    if ls == [] then before
    else
      var last := ls[|ls| - 1];
      if IrqOf(last, strtol) == Value(irq) then Raises(last) else LevelAfter(ls[..|ls| - 1], irq, before, strtol)
  }

  lemma {:induction false} LevelCons(l: string, ls: seq<string>, irq: nat, before: bool, strtol: Strtol)
    ensures LevelAfter([l] + ls, irq, before, strtol) ==
            LevelAfter(ls, irq, if IrqOf(l, strtol) == Value(irq) then Raises(l) else before, strtol)
  {
    var all := [l] + ls;
    if ls == [] {
      assert all[..0] == [];
    } else {
      var k := |ls| - 1;
      assert all[..|all| - 1] == [l] + ls[..k];
      LevelCons(l, ls[..k], irq, before, strtol);
    }
  }

  predicate AllGood(ls: seq<string>, strtol: Strtol) {
    forall i | 0 <= i < |ls| :: GoodIrq(ls[i], strtol)
  }

  /** The reply among the lines of the stream, if the stream has one that is acceptable. */
  predicate Answered(ls: seq<string>, expected: nat, strtol: Strtol) {
    var k := Leading(ls);
    k < |ls| && AllGood(ls[..k], strtol) && GoodReply(ls[k], expected)
  }

  predicate LevelsFrom(levels: Levels, before: Levels, ls: seq<string>, strtol: Strtol) {
    forall irq | 0 <= irq < MAX_IRQ :: levels[irq] == LevelAfter(ls, irq, before[irq], strtol)
  }

  lemma LevelsFromCons(levels: Levels, before: Levels, l: string, ls: seq<string>, strtol: Strtol)
    requires GoodIrq(l, strtol) && LevelsFrom(levels, Notify(before, l, strtol), ls, strtol)
    ensures LevelsFrom(levels, before, [l] + ls, strtol)
  {
    forall irq | 0 <= irq < MAX_IRQ ensures levels[irq] == LevelAfter([l] + ls, irq, before[irq], strtol) {
      LevelCons(l, ls, irq, before[irq], strtol);
      var _ := Notify(before, l, strtol)[irq];
    }
  }

  lemma AnsweredCons(l: string, ls: seq<string>, expected: nat, strtol: Strtol)
    requires IsIrq(l)
    ensures Leading([l] + ls) == 1 + Leading(ls)
    ensures Answered([l] + ls, expected, strtol) <==> GoodIrq(l, strtol) && Answered(ls, expected, strtol)
  {
    var all, k := [l] + ls, Leading(ls);
    assert all[1..] == ls && all[..1 + k] == [l] + ls[..k];
    if AllGood(all[..1 + k], strtol) {
      assert GoodIrq(all[..1 + k][0], strtol);
      forall i | 0 <= i < k ensures GoodIrq(ls[..k][i], strtol) {
        assert all[..1 + k][i + 1] == ls[i];
      }
    }
  }

  /** `r` is what the lines `ls` of the stream `s` call for. */
  predicate Meant(s: string, ls: seq<string>, levels: Levels, expected: nat, strtol: Strtol, r: Outcome) {
    if !Answered(ls, expected, strtol) then r == Aborted
    else MeantAt(s, ls, Leading(ls), levels, strtol, r)
  }

  /** The reply is line `k`, and the lines before it are the notifications. */
  predicate MeantAt(s: string, ls: seq<string>, k: nat, levels: Levels, strtol: Strtol, r: Outcome) {
    && k < |ls| && r.Args? && r.words == Words(ls[k]) && s == Join(ls[..k + 1]) + r.rest
    && LevelsFrom(r.levels, levels, ls[..k], strtol)
  }

  lemma FrontCons(line: string, ls: seq<string>, k: nat)
    requires k < |ls|
    ensures ([line] + ls)[..k + 2] == [line] + ls[..k + 1] && ([line] + ls)[..k + 1] == [line] + ls[..k]
    ensures Join(([line] + ls)[..k + 2]) == line + "\n" + Join(ls[..k + 1])
  {
    assert ([line] + ls)[..k + 2] == [line] + ls[..k + 1];
    JoinCons(line, ls[..k + 1]);
  }

  lemma MeantAfterIrq(
    s: string, line: string, more: string, ls: seq<string>, levels: Levels, expected: nat, strtol: Strtol, r: Outcome)
    requires s == line + "\n" + more && GoodIrq(line, strtol)
    requires Meant(more, ls, Notify(levels, line, strtol), expected, strtol, r)
    ensures Meant(s, [line] + ls, levels, expected, strtol, r)
  {
    AnsweredCons(line, ls, expected, strtol);
    if Answered(ls, expected, strtol) {
      ArgsAfterIrq(more, line, ls, Leading(ls), levels, strtol, r);
    }
  }

  lemma ArgsAfterIrq(
    more: string, line: string, ls: seq<string>, k: nat, levels: Levels, strtol: Strtol, r: Outcome)
    requires GoodIrq(line, strtol) && MeantAt(more, ls, k, Notify(levels, line, strtol), strtol, r)
    ensures MeantAt(line + "\n" + more, [line] + ls, 1 + k, levels, strtol, r)
  {
    FrontCons(line, ls, k);
    Assoc(line + "\n", Join(ls[..k + 1]), r.rest);
    LevelsFromCons(r.levels, levels, line, ls[..k], strtol);
  }

  lemma FirstIsReply(line: string, ls: seq<string>)
    requires !IsIrq(line)
    ensures Leading([line] + ls) == 0 && ([line] + ls)[..0] == [] && ([line] + ls)[..1] == [line]
    ensures Join([line]) == line + "\n"
  {
    JoinCons(line, []);
    assert [line] + [] == [line];
  }

  lemma MeantAtReply(
    s: string, line: string, more: string, ls: seq<string>, levels: Levels, expected: nat, strtol: Strtol)
    requires s == line + "\n" + more && !IsIrq(line)
    ensures Meant(s, [line] + ls, levels, expected, strtol,
                  if GoodReply(line, expected) then Args(Words(line), levels, more) else Aborted)
  {
    FirstIsReply(line, ls);
  }

  /** A command succeeds exactly when the first line of the stream that is no notification is an
      acceptable reply and every notification before it is well formed. It then returns the words of
      that line, leaves what follows it, and every interrupt is as the last of those notifications
      that names it says, or as it was. */
  lemma {:induction false} RspMeaning(s: string, levels: Levels, expected: nat, strtol: Strtol)
    ensures Meant(s, Drain(s).0, levels, expected, strtol, Rsp(s, levels, expected, strtol))
    decreases |s|
  {
    if HasLine(s) {
      var line, more, ls := LineOf(s), After(s), Drain(After(s)).0;
      CutLine(s);
      if !IsIrq(line) {
        MeantAtReply(s, line, more, ls, levels, expected, strtol);
      } else if GoodIrq(line, strtol) {
        RspMeaning(more, Notify(levels, line, strtol), expected, strtol);
        MeantAfterIrq(s, line, more, ls, levels, expected, strtol, Rsp(s, levels, expected, strtol));
      } else {
        AnsweredCons(line, ls, expected, strtol);
      }
    }
  }

  // Lines by their words.

  /** Words without spaces, put together with single spaces, come apart again as they were. */
  lemma {:induction false} CutOfUnwords(ws: seq<string>)
    requires ws != [] && SpaceFree(ws)
    ensures Cut(Unwords(ws)) == ws
    decreases |ws|
  {
    if |ws| == 1 {
      CutWord(ws[0]);
    } else {
      assert SpaceFree(ws[1..]);
      CutOfUnwords(ws[1..]);
      CutAfterWord(ws[0], Unwords(ws[1..]));
      assert ws == [ws[0]] + ws[1..];
    }
  }

  lemma {:induction false} CutWord(w: string)
    requires ' ' !in w
    ensures Cut(w) == [w]
  {
    if w != "" {
      assert ' ' !in w[1..];
      CutWord(w[1..]);
      assert [w[0]] + w[1..] == w;
    }
  }

  lemma {:induction false} CutAfterWord(w: string, more: string)
    requires ' ' !in w
    ensures Cut(w + " " + more) == [w] + Cut(more)
  {
    var line := w + " " + more;
    if w == "" {
      assert line[1..] == more;
    } else {
      assert line[1..] == w[1..] + " " + more && ' ' !in w[1..];
      CutAfterWord(w[1..], more);
      assert [w[0]] + w[1..] == w;
    }
  }

  /** A line of three words, the first of them IRQ, is a good notification exactly if its third word is a
      number from 0 to 255; it then raises that interrupt if the second word is `raise`, lowers it if it
      is anything else, and leaves the others. */
  lemma NotificationMeans(word: string, number: string, levels: Levels, strtol: Strtol)
    requires SpaceFree(["IRQ", word, number])
    ensures var line, n := "IRQ" + " " + (word + " " + number), strtol(number);
            && IsIrq(line) && (GoodIrq(line, strtol) <==> n.Value? && 0 <= n.n < 256)
            && (GoodIrq(line, strtol) ==>
                  forall i | 0 <= i < 256 ::
                    Notify(levels, line, strtol)[i] == if i == n.n then word == "raise" else levels[i])
  {
    var ws := ["IRQ", word, number];
    assert ws[1..] == [word, number] && [word, number][1..] == [number];
    assert Unwords([word, number]) == word + " " + Unwords([number]);
    assert Unwords(ws) == "IRQ" + " " + Unwords([word, number]);
    CutOfUnwords(ws);
  }

  /** A line is an acceptable reply exactly if it begins with the word OK and has the expected number of
      words. */
  lemma ReplyMeans(ws: seq<string>, expected: nat)
    requires ws != [] && SpaceFree(ws) && Unwords(ws) != ""
    ensures GoodReply(Unwords(ws), expected) <==> ws[0] == "OK" && expected <= |ws|
    ensures Words(Unwords(ws)) == ws && (IsIrq(Unwords(ws)) <==> ws[0] == "IRQ")
  {
    CutOfUnwords(ws);
  }
}
