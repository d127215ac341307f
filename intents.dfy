/**
 * The chat box's command router: a first-match-wins classification of the
 * trimmed message into an expense text, a goal command (well-formed or not)
 * or a request for advice.
 */
module Intents {
  import opened Text

  /** The outcome of routing one message. */
  datatype Intent =
    | ExpenseFromText(rawText: string)          // handed to the SMS-style parser
    | GoalCreation(title: string, target: string)
    | GoalUsage                                 // "add goal" with too few words
    | GenericAdvice

  predicate IsDigit(c: char) {
    '0' <= c <= '9'
  }

  /** What may stand between "rs" and the digits: an optional "." and then at most one whitespace character. */
  predicate IsAmountGap(t: string) {
    || |t| == 0
    || (|t| == 1 && (t[0] == '.' || IsSpace(t[0])))
    || (|t| == 2 && t[0] == '.' && IsSpace(t[1]))
  }

  /** The pattern `rs\.?\s?\d+` (case-insensitive) matches at `i`, with its first digit at `k`. */
  ghost predicate AmountAt(s: string, i: int, k: int) {
    && 0 <= i && i + 2 <= k < |s|
    && LowerChar(s[i]) == 'r' && LowerChar(s[i + 1]) == 's'
    && IsAmountGap(s[i + 2..k]) && IsDigit(s[k])
  }

  /** The message holds a currency amount somewhere. */
  ghost predicate HasAmount(s: string) {
    exists i, k :: AmountAt(s, i, k)
  }

  /** The message, lower-cased, holds "at" somewhere. */
  ghost predicate MentionsAt(s: string) {
    exists i :: 0 <= i && i + 1 < |s| && LowerChar(s[i]) == 'a' && LowerChar(s[i + 1]) == 't'
  }

  /**
   * The regular expression tried at one start position. The matcher
   * backtracks through the two optional parts, so four spellings are tried;
   * one digit is enough for `\d+` to match.
   */
  function MatchAmountAt(s: string, i: nat): (r: bool)
    ensures r <==> exists k :: AmountAt(s, i, k)
  {
    if i + 2 < |s| && LowerChar(s[i]) == 'r' && LowerChar(s[i + 1]) == 's' then
      var j := i + 2;
      var r := || IsDigit(s[j])
               || (j + 1 < |s| && (s[j] == '.' || IsSpace(s[j])) && IsDigit(s[j + 1]))
               || (j + 2 < |s| && s[j] == '.' && IsSpace(s[j + 1]) && IsDigit(s[j + 2]));
      AmountGapCases(s, i, r);
      r
    else
      assert forall k :: !AmountAt(s, i, k);
      false
  }

  lemma AmountGapCases(s: string, i: nat, r: bool)
    requires i + 2 < |s| && LowerChar(s[i]) == 'r' && LowerChar(s[i + 1]) == 's'
    requires var j := i + 2;
      r == (|| IsDigit(s[j])
            || (j + 1 < |s| && (s[j] == '.' || IsSpace(s[j])) && IsDigit(s[j + 1]))
            || (j + 2 < |s| && s[j] == '.' && IsSpace(s[j + 1]) && IsDigit(s[j + 2])))
    ensures r <==> exists k :: AmountAt(s, i, k)
  {
    var j := i + 2;
    if r {
      if IsDigit(s[j]) {
        assert AmountAt(s, i, j);
      } else if j + 1 < |s| && (s[j] == '.' || IsSpace(s[j])) && IsDigit(s[j + 1]) {
        assert s[j..j + 1] == [s[j]];
        assert AmountAt(s, i, j + 1);
      } else {
        assert s[j..j + 2] == [s[j], s[j + 1]];
        assert AmountAt(s, i, j + 2);
      }
    } else {
      forall k | AmountAt(s, i, k) ensures false {
      }
    }
  }

  /** `/rs\.?\s?\d+/i.test` from start position `i` on: the first start that matches, if any. */
  function FindAmount(s: string, i: nat): (r: bool)
    requires i <= |s|
    ensures r <==> exists j, k :: i <= j && AmountAt(s, j, k)
    decreases |s| - i
  {
    if i == |s| then false
    else
      var here := MatchAmountAt(s, i);
      var later := FindAmount(s, i + 1);
      assert (exists j, k :: i <= j && AmountAt(s, j, k)) <==>
             (exists k :: AmountAt(s, i, k)) || (exists j, k :: i + 1 <= j && AmountAt(s, j, k));
      here || later
  }

  /** `includes("at")` on the lower-cased message is the character-level test `MentionsAt`. */
  lemma MentionsAtContains(m: string)
    ensures Contains(ToLower(m), "at") <==> MentionsAt(m)
  {
    var l := ToLower(m);
    if Contains(l, "at") {
      var i :| OccursAt(l, "at", i);
      assert l[i..i + 2][0] == l[i] && l[i..i + 2][1] == l[i + 1];
    }
    if MentionsAt(m) {
      var i :| 0 <= i && i + 1 < |m| && LowerChar(m[i]) == 'a' && LowerChar(m[i + 1]) == 't';
      assert l[i..i + 2] == "at";
      assert OccursAt(l, "at", i);
    }
  }

  /** The expense test of the router: the lower-cased message contains "at" and the amount pattern matches. */
  predicate IsExpenseText(m: string) {
    Contains(ToLower(m), "at") && FindAmount(m, 0)
  }

  /** The goal test of the router: the lower-cased message starts with "add goal". */
  predicate IsGoalCommand(m: string) {
    StartsWith(ToLower(m), "add goal")
  }

  /**
   * Routes the trimmed message `m`: expense first, then "add goal" (split
   * on single spaces; four parts or more make a goal whose target is the
   * last part and whose title is the parts after "add goal" joined by
   * spaces), then advice.
   */
  function Classify(m: string): (intent: Intent)
    ensures intent.ExpenseFromText? <==> MentionsAt(m) && HasAmount(m)
    ensures intent.ExpenseFromText? ==> intent.rawText == m
    ensures intent.GoalCreation? <==>
              !(MentionsAt(m) && HasAmount(m)) && IsGoalCommand(m) && multiset(m)[' '] >= 3
    ensures intent.GoalUsage? <==>
              !(MentionsAt(m) && HasAmount(m)) && IsGoalCommand(m) && multiset(m)[' '] < 3
    ensures intent.GenericAdvice? <==> !(MentionsAt(m) && HasAmount(m)) && !IsGoalCommand(m)
  {
    MentionsAtContains(m);
    SplitCount(m, ' ');
    if IsExpenseText(m) then
      ExpenseFromText(m)
    else if IsGoalCommand(m) then
      var parts := Split(m, ' ');
      if |parts| >= 4 then
        var target := parts[|parts| - 1];
        var title := Join(parts[2..|parts| - 1], ' ');
        GoalCreation(title, target)
      else
        GoalUsage
    else
      GenericAdvice
  }

  /** Joining after appending one part puts one separator before it. */
  lemma {:induction false} JoinSnoc(parts: seq<string>, p: string, sep: char)
    requires parts != []
    ensures Join(parts + [p], sep) == Join(parts, sep) + [sep] + p
    decreases |parts|
  {
    if |parts| == 1 {
      assert parts + [p] == [parts[0], p];
    } else {
      assert (parts + [p])[1..] == parts[1..] + [p];
      JoinSnoc(parts[1..], p, sep);
    }
  }

  /** A join of four or more parts, with its first two and its last part written out. */
  lemma {:induction false} JoinOuterParts(parts: seq<string>, sep: char)
    requires |parts| >= 4
    ensures Join(parts, sep)
      == parts[0] + [sep] + parts[1] + [sep] + Join(parts[2..|parts| - 1], sep) + [sep] + parts[|parts| - 1]
  {
    var n := |parts|;
    var middle := parts[2..n - 1];
    var tail := parts[2..];
    assert tail == middle + [parts[n - 1]];
    JoinSnoc(middle, parts[n - 1], sep);
    assert parts[1..][1..] == tail;
    assert Join(parts[1..], sep) == parts[1] + [sep] + Join(tail, sep);
    assert Join(parts, sep) == parts[0] + [sep] + Join(parts[1..], sep);
  }

  /**
   * A goal command reads back as its first two words, the title and the
   * target, separated by single spaces: the title is exactly the text
   * between the second space and the last one, in its original case, and
   * the target holds no space.
   */
  lemma GoalShape(m: string)
    requires Classify(m).GoalCreation?
    ensures var parts := Split(m, ' '); var g := Classify(m);
      && m == parts[0] + " " + parts[1] + " " + g.title + " " + g.target
      && ' ' !in parts[0] && ' ' !in parts[1] && ' ' !in g.target
  {
    GoalParts(m);
    SplitOuterParts(m);
  }

  /** A goal's title and target are the middle parts, joined, and the last part of the split. */
  lemma GoalParts(m: string)
    requires Classify(m).GoalCreation?
    ensures var parts := Split(m, ' '); var n := |parts|;
      n >= 4 && Classify(m) == GoalCreation(Join(parts[2..n - 1], ' '), parts[n - 1])
  {
  }

  /** A message that splits into four or more parts, written as its outer parts around the joined middle. */
  lemma SplitOuterParts(m: string)
    requires |Split(m, ' ')| >= 4
    ensures var parts := Split(m, ' '); var n := |parts|;
      m == parts[0] + " " + parts[1] + " " + Join(parts[2..n - 1], ' ') + " " + parts[n - 1]
  {
    JoinSplit(m, ' ');
    JoinOuterParts(Split(m, ' '), ' ');
  }

  /** "Paid Rs 500 at Starbucks" is an expense text. */
  lemma ExpenseExample(m: string)
    requires m == "Paid Rs 500 at Starbucks"
    ensures Classify(m) == ExpenseFromText(m)
  {
    ExpenseExampleMatches(m);
  }

  lemma ExpenseExampleMatches(m: string)
    requires m == "Paid Rs 500 at Starbucks"
    ensures MentionsAt(m) && HasAmount(m)
  {
    assert LowerChar(m[12]) == 'a' && LowerChar(m[13]) == 't';
    assert m[7..8] == " ";
    assert AmountAt(m, 5, 8);
  }

  /** "Add goal Vacation 20000" creates the goal "Vacation" with target "20000". */
  lemma GoalExample(m: string)
    requires m == "Add goal Vacation 20000"
    ensures Classify(m) == GoalCreation("Vacation", "20000")
  {
    GoalExampleWords(m);
    GoalExampleHasNoAmount(m);
    GoalExampleIsGoalCommand(m);
    assert !FindAmount(m, 0);
    assert Split(m, ' ')[2..3] == ["Vacation"];
  }

  lemma GoalExampleWords(m: string)
    requires m == "Add goal Vacation 20000"
    ensures Split(m, ' ') == ["Add", "goal", "Vacation", "20000"]
  {
    var parts := ["Add", "goal", "Vacation", "20000"];
    assert Join(parts, ' ') == m;
    SplitJoin(parts, ' ');
  }

  lemma GoalExampleHasNoAmount(m: string)
    requires m == "Add goal Vacation 20000"
    ensures !HasAmount(m)
  {
    assert 'r' !in m && 'R' !in m;
  }

  lemma GoalExampleIsGoalCommand(m: string)
    requires m == "Add goal Vacation 20000"
    ensures IsGoalCommand(m)
  {
  }

  /** "Add goal Car" has three words only: the usage hint. */
  lemma UsageExample(m: string)
    requires m == "Add goal Car"
    ensures Classify(m) == GoalUsage
  {
    UsageExampleWords(m);
    UsageExampleHasNoAmount(m);
    assert !FindAmount(m, 0);
  }

  lemma UsageExampleWords(m: string)
    requires m == "Add goal Car"
    ensures Split(m, ' ') == ["Add", "goal", "Car"]
  {
    var parts := ["Add", "goal", "Car"];
    assert Join(parts, ' ') == m;
    SplitJoin(parts, ' ');
  }

  lemma UsageExampleHasNoAmount(m: string)
    requires m == "Add goal Car"
    ensures !HasAmount(m)
  {
    assert 's' !in m && 'S' !in m;
  }

  /**
   * The expense test runs first: a goal command whose words hold "at" and a
   * rupee amount is routed to the expense parser, not to goal creation.
   */
  lemma ExpenseBeatsGoalExample(m: string)
    requires m == "Add goal Flat Rs 500000"
    ensures IsGoalCommand(m)
    ensures Classify(m) == ExpenseFromText(m)
  {
    ExpenseBeatsGoalMatches(m);
  }

  lemma ExpenseBeatsGoalMatches(m: string)
    requires m == "Add goal Flat Rs 500000"
    ensures IsGoalCommand(m) && MentionsAt(m) && HasAmount(m)
  {
    assert LowerChar(m[11]) == 'a' && LowerChar(m[12]) == 't';
    assert m[16..17] == " ";
    assert AmountAt(m, 14, 17);
  }
}
