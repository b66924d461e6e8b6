/**
 The name of the StatefulSet a rolling upgrade migrates to: the revision at the end of the current name, plus one.
 A revision is held in a machine integer, `max` being its largest value.
 */
module FreshNames {

  predicate IsDigit(c: char) {
    '0' <= c <= '9'
  }

  predicate AllDigits(s: string) {
    forall k :: 0 <= k < |s| ==> IsDigit(s[k])
  }

  function DigitOf(n: nat): char
    requires n < 10
  {
    '0' + n as char
  }

  function Print(n: nat): (s: string)
    ensures s != "" && AllDigits(s)
  {
    if n < 10 then [DigitOf(n)] else Print(n / 10) + [DigitOf(n % 10)]
  }

  function Parse(s: string): nat
    requires AllDigits(s)
  {
    if s == "" then 0 else 10 * Parse(s[..|s| - 1]) + (s[|s| - 1] - '0') as nat
  }

  lemma {:induction false} ParsePrint(n: nat)
    ensures Parse(Print(n)) == n
    decreases n
  {
    var s := Print(n);
    if n < 10 {
      assert s[..0] == "";
    } else {
      ParsePrint(n / 10);
      assert s[..|s| - 1] == Print(n / 10);
    }
  }

  // The position of the last dash, or -1.
  function LastDash(s: string): (i: int)
    ensures -1 <= i < |s|
    ensures i >= 0 ==> s[i] == '-'
    ensures forall k :: i < k < |s| ==> s[k] != '-'
  {
    if s == "" then -1 else if s[|s| - 1] == '-' then |s| - 1 else LastDash(s[..|s| - 1])
  }

  // The name matches (.*)-([\d]+$).
  predicate Revised(name: string) {
    var i := LastDash(name);
    i >= 0 && i + 1 < |name| && AllDigits(name[i + 1..])
  }

  function BaseOf(name: string): string
    requires Revised(name)
  {
    name[..LastDash(name)]
  }

  function DigitsOf(name: string): (s: string)
    requires Revised(name)
    ensures s != "" && AllDigits(s)
  {
    name[LastDash(name) + 1..]
  }

  function RevisionOf(name: string): nat
    requires Revised(name)
  {
    Parse(DigitsOf(name))
  }

  // The conversion to a machine integer saturates; its error is ignored.
  function Atoi(s: string, max: nat): (n: nat)
    requires AllDigits(s)
    ensures n <= max
  {
    var n := Parse(s);
    if n > max then max else n
  }

  // The increment of a machine integer wraps around.
  function Increment(n: int, max: nat): int {
    if n == max then -(max + 1) else n + 1
  }

  function Itoa(n: int): string {
    if n < 0 then "-" + Print(-n) else Print(n)
  }

  function Generate(name: string, max: nat): string {
    if !Revised(name) then name + "-1"
    else BaseOf(name) + "-" + Itoa(Increment(Atoi(DigitsOf(name), max), max))
  }

  // Splitting undoes joining.
  lemma SplitJoined(base: string, digits: string)
    requires digits != "" && AllDigits(digits)
    ensures var name := base + "-" + digits;
            Revised(name) && BaseOf(name) == base && DigitsOf(name) == digits
  {
    var name := base + "-" + digits;
    var i := LastDash(name);
    assert name[|base|] == '-';
    assert forall k :: |base| < k < |name| ==> IsDigit(name[k]) by {
      assert forall k :: |base| < k < |name| ==> name[k] == digits[k - |base| - 1];
    }
    assert i == |base|;
    assert name[i + 1..] == digits && name[..i] == base;
  }

  lemma RevisionJoined(base: string, n: nat)
    ensures var name := base + "-" + Print(n);
            Revised(name) && BaseOf(name) == base && RevisionOf(name) == n
  {
    SplitJoined(base, Print(n));
    ParsePrint(n);
  }

  lemma FirstGenerated(name: string, max: nat)
    requires !Revised(name)
    ensures Revised(Generate(name, max)) && BaseOf(Generate(name, max)) == name && RevisionOf(Generate(name, max)) == 1
  {
    OneIsPrinted(name);
    RevisionJoined(name, 1);
  }

  lemma OneIsPrinted(name: string)
    ensures name + "-1" == name + "-" + Print(1)
  {
    assert Print(1) == "1";
    assert name + "-1" == name + ("-" + "1");
  }

  lemma NextBelow(name: string, max: nat)
    requires Revised(name) && RevisionOf(name) < max
    ensures var next := Generate(name, max);
            Revised(next) && BaseOf(next) == BaseOf(name) && RevisionOf(next) == RevisionOf(name) + 1
  {
    var r := Atoi(DigitsOf(name), max);
    assert Generate(name, max) == BaseOf(name) + "-" + Print(r + 1);
    RevisionJoined(BaseOf(name), r + 1);
  }

  lemma NextBeyond(name: string, max: nat)
    requires Revised(name) && RevisionOf(name) >= max
    ensures var next := Generate(name, max);
            Revised(next) && BaseOf(next) == BaseOf(name) + "-" && RevisionOf(next) == max + 1
  {
    var base, n := BaseOf(name), max + 1;
    assert Itoa(-n) == "-" + Print(n);
    assert base + "-" + ("-" + Print(n)) == (base + "-") + "-" + Print(n);
    RevisionJoined(base + "-", n);
  }

  // The next name keeps the base and increments the revision, exactly when the revision is below the largest machine
  // integer; from there on the base grows by a dash.
  lemma NextGenerated(name: string, max: nat)
    requires Revised(name)
    ensures var next := Generate(name, max);
            && Revised(next)
            && (BaseOf(next) == BaseOf(name) <==> RevisionOf(name) < max)
            && (RevisionOf(name) < max ==> RevisionOf(next) == RevisionOf(name) + 1)
            && (RevisionOf(name) >= max ==> BaseOf(next) == BaseOf(name) + "-" && RevisionOf(next) == max + 1)
  {
    if RevisionOf(name) < max {
      NextBelow(name, max);
    } else {
      NextBeyond(name, max);
      assert |BaseOf(name) + "-"| == |BaseOf(name)| + 1;
    }
  }

  // The target of an upgrade is never its source, whatever the name.
  lemma TargetIsNotSource(name: string, max: nat)
    ensures Generate(name, max) != name
  {
    if Revised(name) {
      NextGenerated(name, max);
    }
  }

  // The name after `k` upgrades.
  function After(name: string, max: nat, k: nat): string {
    if k == 0 then name else Generate(After(name, max, k - 1), max)
  }

  // The name is `base`, a dash and the revision `n`.
  predicate Numbered(name: string, base: string, n: nat) {
    Revised(name) && BaseOf(name) == base && RevisionOf(name) == n
  }

  lemma OneMore(last: string, base: string, n: nat, max: nat)
    requires Numbered(last, base, n) && n < max
    ensures Numbered(Generate(last, max), base, n + 1)
  {
    NextGenerated(last, max);
  }

  // Over any number of upgrades below the bound the revision grows by one each time, on the same base.
  lemma {:induction false} RevisionsGrow(name: string, base: string, n: nat, max: nat, k: nat)
    requires Numbered(name, base, n) && n + k <= max
    ensures Numbered(After(name, max, k), base, n + k)
  {
    if k > 0 {
      RevisionsGrow(name, base, n, max, k - 1);
      OneMore(After(name, max, k - 1), base, n + k - 1, max);
    }
  }

  // The same from a name without a revision.
  lemma {:induction false} RevisionsStart(name: string, max: nat, k: nat)
    requires !Revised(name) && 0 < k <= max
    ensures Numbered(After(name, max, k), name, k)
  {
    if k == 1 {
      FirstGenerated(name, max);
      assert After(name, max, 0) == name;
    } else {
      RevisionsStart(name, max, k - 1);
      OneMore(After(name, max, k - 1), name, k - 1, max);
    }
  }

  // Hence no name is ever used twice.
  lemma NamesAreFresh(name: string, max: nat, j: nat, k: nat)
    requires j < k <= max
    requires Revised(name) ==> RevisionOf(name) + k <= max
    ensures After(name, max, j) != After(name, max, k)
  {
    if Revised(name) {
      RevisionsGrow(name, BaseOf(name), RevisionOf(name), max, j);
      RevisionsGrow(name, BaseOf(name), RevisionOf(name), max, k);
    } else {
      RevisionsStart(name, max, k);
      if j > 0 {
        RevisionsStart(name, max, j);
      }
    }
  }
}
