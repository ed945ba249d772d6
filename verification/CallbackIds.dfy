/**
  Ids of the buttons that answer or cancel a question put to a user on
  Discord: built from a run, two indexes and a token, and parsed when pressed.
 */
module CallbackIds {
  import opened Prelude
  import opened Decimal
  import opened Fields

  const MAX_SAFE_INTEGER: nat := 9_007_199_254_740_991

  const MAX_ID_LENGTH: nat := 100

  const TEN_TO_21: nat := 1_000_000_000_000_000_000_000

  /**
    Integers as ECMAScript numbers: which ones there are, how String shows one,
    and the number that text of digits reads as (none when it reads as infinity).
   */
  datatype Numbers = Numbers(has: nat -> bool, show: nat -> string, number: string -> Option<nat>)

  /** Number::toString and StringToNumber of ECMA-262 (sections 6.1.6.1.20 and 7.1.4.1), for what is used here. */
  ghost predicate Lawful(num: Numbers) {
    && (forall n: nat :: n <= MAX_SAFE_INTEGER ==> num.has(n) && num.show(n) == Print(n))
    && (forall n: nat :: num.has(n) && n < TEN_TO_21 ==>
          IsCanonical(num.show(n)) && |num.show(n)| <= 21 && num.number(num.show(n)) == Some(n))
    && (forall n: nat :: num.has(n) && n >= TEN_TO_21 ==> 'e' in num.show(n) && ':' !in num.show(n))
    && (forall s :: IsNumeral(s) && Read(s) <= MAX_SAFE_INTEGER ==> num.number(s) == Some(Read(s)))
    && (forall s :: IsNumeral(s) && Read(s) > MAX_SAFE_INTEGER ==>
          num.number(s).None? || num.number(s).value > MAX_SAFE_INTEGER)
  }

  datatype Answer = Answer(run: nat, question: nat, option: nat, token: string)
  datatype Cancel = Cancel(run: nat, token: string)

  predicate IsHex24(t: string) {
    |t| == 24 && forall i :: 0 <= i < |t| ==> 'a' <= t[i] <= 'f' || IsDigit(t[i])
  }

  predicate IsShortToken(t: string) {
    && |t| == 8
    && forall i :: 0 <= i < |t| ==>
         'A' <= t[i] <= 'Z' || 'a' <= t[i] <= 'z' || IsDigit(t[i]) || t[i] == '_' || t[i] == '-'
  }

  predicate IsToken(t: string) {
    IsHex24(t) || IsShortToken(t)
  }

  function BuildAnswer(num: Numbers, a: Answer): string {
    "discord:rui:" + num.show(a.run) + ":" + num.show(a.question) + ":" + num.show(a.option) + ":" + a.token
  }

  function BuildCancel(num: Numbers, c: Cancel): string {
    "discord:rui_cancel:" + num.show(c.run) + ":" + c.token
  }

  predicate IsNumeral(s: string) {
    s != [] && IsDigits(s)
  }

  predicate IsRunId(n: Option<nat>) {
    n.Some? && 0 < n.value <= MAX_SAFE_INTEGER
  }

  /** The four groups of the answer pattern, when the value has that shape. */
  function AnswerGroups(value: string): Option<seq<string>> {
    var f := Split(value, ':');
    if |f| == 6 && f[0] == "discord" && f[1] == "rui"
       && IsNumeral(f[2]) && IsNumeral(f[3]) && IsNumeral(f[4]) && IsToken(f[5])
    then Some(f[2..]) else None
  }

  function CancelGroups(value: string): Option<seq<string>> {
    var f := Split(value, ':');
    if |f| == 4 && f[0] == "discord" && f[1] == "rui_cancel" && IsNumeral(f[2]) && IsToken(f[3])
    then Some(f[2..]) else None
  }

  function ParseAnswer(num: Numbers, value: string): Option<Answer> {
    match AnswerGroups(value)
    case None => None
    case Some(g) =>
      var run, question, option := num.number(g[0]), num.number(g[1]), num.number(g[2]);
      if IsRunId(run) && question.Some? && option.Some?
      then Some(Answer(run.value, question.value, option.value, g[3])) else None
  }

  function ParseCancel(num: Numbers, value: string): Option<Cancel> {
    match CancelGroups(value)
    case None => None
    case Some(g) =>
      var run := num.number(g[0]);
      if IsRunId(run) then Some(Cancel(run.value, g[1])) else None
  }

  function AnswerText(g: seq<string>): string
    requires |g| == 4
  {
    "discord:rui:" + g[0] + ":" + g[1] + ":" + g[2] + ":" + g[3]
  }

  function CancelText(g: seq<string>): string
    requires |g| == 2
  {
    "discord:rui_cancel:" + g[0] + ":" + g[1]
  }

  lemma AnswerTextJoins(g: seq<string>)
    requires |g| == 4
    ensures AnswerText(g) == Join(["discord", "rui"] + g, ':')
  {
    hide Join;
    assert ["discord", "rui"] + g == ["discord"] + (["rui"] + ([g[0]] + ([g[1]] + ([g[2]] + [g[3]]))));
    JoinCons("discord", ["rui"] + ([g[0]] + ([g[1]] + ([g[2]] + [g[3]]))), ':');
    JoinCons("rui", [g[0]] + ([g[1]] + ([g[2]] + [g[3]])), ':');
    JoinCons(g[0], [g[1]] + ([g[2]] + [g[3]]), ':');
    JoinCons(g[1], [g[2]] + [g[3]], ':');
    JoinCons(g[2], [g[3]], ':');
    JoinOne(g[3], ':');
  }

  lemma CancelTextJoins(g: seq<string>)
    requires |g| == 2
    ensures CancelText(g) == Join(["discord", "rui_cancel"] + g, ':')
  {
    hide Join;
    assert ["discord", "rui_cancel"] + g == ["discord"] + (["rui_cancel"] + ([g[0]] + [g[1]]));
    JoinCons("discord", ["rui_cancel"] + ([g[0]] + [g[1]]), ':');
    JoinCons("rui_cancel", [g[0]] + [g[1]], ':');
    JoinCons(g[0], [g[1]], ':');
    JoinOne(g[1], ':');
  }

  /** Splitting reads the groups the pattern matches: each way, for every text. */
  lemma AnswerGroupsIff(value: string, g: seq<string>)
    requires |g| == 4
    ensures AnswerGroups(value) == Some(g) <==>
              value == AnswerText(g) && IsNumeral(g[0]) && IsNumeral(g[1]) && IsNumeral(g[2]) && IsToken(g[3])
  {
    AnswerTextJoins(g);
    var f := ["discord", "rui"] + g;
    if IsNumeral(g[0]) && IsNumeral(g[1]) && IsNumeral(g[2]) && IsToken(g[3]) {
      SplitJoin(f, ':');
    }
    JoinSplit(value, ':');
    if AnswerGroups(value) == Some(g) {
      assert Split(value, ':') == f;
    }
  }

  lemma CancelGroupsIff(value: string, g: seq<string>)
    requires |g| == 2
    ensures CancelGroups(value) == Some(g) <==> value == CancelText(g) && IsNumeral(g[0]) && IsToken(g[1])
  {
    CancelTextJoins(g);
    var f := ["discord", "rui_cancel"] + g;
    if IsNumeral(g[0]) && IsToken(g[1]) {
      SplitJoin(f, ':');
    }
    JoinSplit(value, ':');
    if CancelGroups(value) == Some(g) {
      assert Split(value, ':') == f;
    }
  }

  /**
    A built answer id parses back to what it was built from exactly when both
    indexes are below 10^21, where numbers start to print in exponent form.
   */
  lemma AnswerRoundTripIff(num: Numbers, a: Answer)
    requires Lawful(num) && num.has(a.question) && num.has(a.option)
    requires 0 < a.run <= MAX_SAFE_INTEGER && IsToken(a.token)
    ensures ParseAnswer(num, BuildAnswer(num, a)) == Some(a) <==> a.question < TEN_TO_21 && a.option < TEN_TO_21
    ensures !(a.question < TEN_TO_21 && a.option < TEN_TO_21) ==> ParseAnswer(num, BuildAnswer(num, a)) == None
  {
    var g := [num.show(a.run), num.show(a.question), num.show(a.option), a.token];
    AnswerTextJoins(g);
    assert ':' !in a.token;
    SplitJoin(["discord", "rui"] + g, ':');
    assert BuildAnswer(num, a) == AnswerText(g);
    AnswerGroupsIff(BuildAnswer(num, a), g);
  }

  lemma CancelRoundTrip(num: Numbers, c: Cancel)
    requires Lawful(num) && 0 < c.run <= MAX_SAFE_INTEGER && IsToken(c.token)
    ensures ParseCancel(num, BuildCancel(num, c)) == Some(c)
  {
    var g := [num.show(c.run), c.token];
    assert BuildCancel(num, c) == CancelText(g);
    CancelGroupsIff(BuildCancel(num, c), g);
  }

  /** No text, built or not, is read as both kinds. */
  lemma KindsAreDisjoint(num: Numbers, value: string)
    ensures ParseAnswer(num, value) == None || ParseCancel(num, value) == None
  {
  }

  /** Different answers get different ids, for all indexes that print as plain digits. */
  lemma AnswerIdsAreDistinct(num: Numbers, a: Answer, b: Answer)
    requires Lawful(num) && IsToken(a.token) && IsToken(b.token)
    requires 0 < a.run <= MAX_SAFE_INTEGER && 0 < b.run <= MAX_SAFE_INTEGER
    requires num.has(a.question) && num.has(a.option) && num.has(b.question) && num.has(b.option)
    requires a.question < TEN_TO_21 && a.option < TEN_TO_21 && b.question < TEN_TO_21 && b.option < TEN_TO_21
    requires BuildAnswer(num, a) == BuildAnswer(num, b)
    ensures a == b
  {
    AnswerRoundTripIff(num, a);
    AnswerRoundTripIff(num, b);
  }

  lemma ShownIff(num: Numbers, numeral: string)
    requires Lawful(num) && IsNumeral(numeral)
    requires num.number(numeral).Some? && num.number(numeral).value <= MAX_SAFE_INTEGER
    ensures num.show(num.number(numeral).value) == numeral <==> IsCanonical(numeral)
  {
    RoundTripIff(numeral);
  }

  /** What was parsed builds the same text again exactly when no numeral in it has a leading zero. */
  lemma RebuildIff(num: Numbers, value: string)
    requires Lawful(num) && ParseAnswer(num, value).Some?
    requires ParseAnswer(num, value).value.question <= MAX_SAFE_INTEGER
    requires ParseAnswer(num, value).value.option <= MAX_SAFE_INTEGER
    ensures var g := AnswerGroups(value).value;
            BuildAnswer(num, ParseAnswer(num, value).value) == value <==> forall i :: 0 <= i < 3 ==> IsCanonical(g[i])
  {
    var g := AnswerGroups(value).value;
    var a := ParseAnswer(num, value).value;
    AnswerGroupsIff(value, g);
    var h := [num.show(a.run), num.show(a.question), num.show(a.option), a.token];
    assert BuildAnswer(num, a) == AnswerText(h);
    AnswerGroupsIff(value, h);
    ShownIff(num, g[0]);
    ShownIff(num, g[1]);
    ShownIff(num, g[2]);
  }

  /** Every id that can come back fits in Discord's limit. */
  lemma IdsFit(num: Numbers, a: Answer)
    requires Lawful(num) && num.has(a.question) && num.has(a.option) && IsHex24(a.token)
    requires 0 < a.run <= MAX_SAFE_INTEGER && a.question < TEN_TO_21 && a.option < TEN_TO_21
    ensures |BuildAnswer(num, a)| <= 97 <= MAX_ID_LENGTH
    ensures |BuildCancel(num, Cancel(a.run, a.token))| <= 60 <= MAX_ID_LENGTH
  {
    assert MAX_SAFE_INTEGER < Pow10(16) by { PowersOfTen(); }
    PrintLength(a.run, 16);
  }

  lemma PowersOfTen()
    ensures Pow10(16) == 10_000_000_000_000_000
  {
    assert Pow10(8) == 100_000_000;
    assert Pow10(16) == 10 * Pow10(15) == 100 * Pow10(14) == 1_000 * Pow10(13) == 10_000 * Pow10(12);
    assert Pow10(12) == 10 * Pow10(11) == 100 * Pow10(10) == 1_000 * Pow10(9) == 10_000 * Pow10(8);
  }

  /** The safe integers and 10^21, which String shows as 1e+21. */
  function SomeNumbers(): Numbers {
    Numbers(
      (n: nat) => n <= MAX_SAFE_INTEGER || n == TEN_TO_21,
      (n: nat) => if n == TEN_TO_21 then "1e+21" else Print(n),
      s => if IsNumeral(s) && (Read(s) <= MAX_SAFE_INTEGER || Read(s) == TEN_TO_21) then Some(Read(s)) else None)
  }

  lemma SomeNumbersAreLawful()
    ensures Lawful(SomeNumbers())
  {
    forall n: nat | n <= MAX_SAFE_INTEGER
      ensures IsCanonical(Print(n)) && |Print(n)| <= 21 && Read(Print(n)) == n
    {
      ReadPrint(n);
      PowersOfTen();
      PrintLength(n, 16);
    }
    assert "1e+21"[1] == 'e';
  }

  /** Such an index, which no list of questions or options is long enough to have, does not come back. */
  lemma HugeIndexIsLost(token: string)
    requires IsToken(token)
    ensures var a := Answer(1, TEN_TO_21, 0, token);
            && BuildAnswer(SomeNumbers(), a) == "discord:rui:" + Print(1) + ":1e+21:" + Print(0) + ":" + token
            && ParseAnswer(SomeNumbers(), BuildAnswer(SomeNumbers(), a)) == None
  {
    var a := Answer(1, TEN_TO_21, 0, token);
    SomeNumbersAreLawful();
    AnswerRoundTripIff(SomeNumbers(), a);
    assert "discord:rui:" + Print(1) + ":" + "1e+21" + ":" == "discord:rui:" + Print(1) + ":1e+21:";
  }
}
