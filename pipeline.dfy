/**
  The two pieces of decision logic of the pipeline's entry script: the
  termination predicate handed to the controller agent, and the mapping from
  the typed menu choice to the topic of the run.
 */
module Pipeline {
  import opened Text

  // ---------------------------------------------------------------------------
  // is_termination_message
  // ---------------------------------------------------------------------------

  /** A chat message: a dict from field names to string values. */
  type Message = map<string, string>

  /** The completion signals, already in upper case. */
  const TerminationSignals: seq<string> :=
    ["TASK_COMPLETE", "APPROVED - CONTENT MEETS QUALITY STANDARDS", "WORKFLOW COMPLETE"]

  /** `message.get("content", "")` */
  function Content(message: Message): string
  {
    if "content" in message then message["content"] else ""
  }

  /** `any(signal in content for signal in termination_signals)` */
  predicate ContainsSignal(content: string)
  {
    exists k | 0 <= k < |TerminationSignals| :: IsSubstring(TerminationSignals[k], content)
  }

  /** `is_termination_message(message)` */
  predicate IsTerminationMessage(message: Message)
  {
    ContainsSignal(Upper(Content(message)))
  }

  /**
    A message terminates exactly when one of the signals occurs somewhere in
    its raw content, each letter in either case: the test is a
    case-insensitive substring match.
   */
  lemma TerminationIff(message: Message)
    ensures IsTerminationMessage(message) <==>
            exists k, i :: 0 <= k < |TerminationSignals| && OccursIgnoringCase(TerminationSignals[k], Content(message), i)
  {
    var c := Content(message);
    forall k, i | 0 <= k < |TerminationSignals|
      ensures OccursAt(TerminationSignals[k], Upper(c), i) <==> OccursIgnoringCase(TerminationSignals[k], c, i)
    {
      var s := TerminationSignals[k];
      assert forall j :: 0 <= j < |s| ==> !IsLowerLetter(s[j]);
      UpperOccursIff(s, c, i);
    }
    if IsTerminationMessage(message) {
      var k :| 0 <= k < |TerminationSignals| && IsSubstring(TerminationSignals[k], Upper(c));
      var i :| 0 <= i <= |Upper(c)| - |TerminationSignals[k]| && OccursAt(TerminationSignals[k], Upper(c), i);
      assert OccursIgnoringCase(TerminationSignals[k], c, i);
    }
    if exists k, i :: 0 <= k < |TerminationSignals| && OccursIgnoringCase(TerminationSignals[k], c, i) {
      var k, i :| 0 <= k < |TerminationSignals| && OccursIgnoringCase(TerminationSignals[k], c, i);
      assert OccursAt(TerminationSignals[k], Upper(c), i);
      assert IsSubstring(TerminationSignals[k], Upper(c));
    }
  }

  /** The test ignores letter case: contents that differ only in case decide alike. */
  lemma TerminationIgnoresCase(m1: Message, m2: Message)
    requires EqualIgnoringCase(Content(m1), Content(m2))
    ensures IsTerminationMessage(m1) == IsTerminationMessage(m2)
  {
    UpperIgnoresCase(Content(m1), Content(m2));
  }

  /** The test is monotone: content that contains terminating content terminates too. */
  lemma TerminationMonotone(m1: Message, m2: Message)
    requires IsSubstring(Content(m1), Content(m2))
    requires IsTerminationMessage(m1)
    ensures IsTerminationMessage(m2)
  {
    var c1, c2 := Upper(Content(m1)), Upper(Content(m2));
    UpperKeepsSubstring(Content(m1), Content(m2));
    var k :| 0 <= k < |TerminationSignals| && IsSubstring(TerminationSignals[k], c1);
    SubstringTransitive(TerminationSignals[k], c1, c2);
  }

  /** The position of the terminating text within the content does not matter. */
  lemma TerminationAnyPosition(pre: string, content: string, post: string)
    requires IsTerminationMessage(map["content" := content])
    ensures IsTerminationMessage(map["content" := pre + content + post])
  {
    SubstringOfConcat(content, pre, post);
    TerminationMonotone(map["content" := content], map["content" := pre + content + post]);
  }

  /** A message without a `content` field reads as empty and never terminates. */
  lemma MissingContentDoesNotTerminate(message: Message)
    requires "content" !in message
    ensures !IsTerminationMessage(message)
  {
    assert Upper(Content(message)) == "";
    forall k | 0 <= k < |TerminationSignals|
      ensures !IsSubstring(TerminationSignals[k], "")
    {
      LongerNotSubstring(TerminationSignals[k], "");
    }
  }

  /** Text whose upper-case form is a signal terminates, wherever it stands in the content. */
  lemma SignalAnywhereTerminates(pre: string, signal: string, post: string)
    requires Upper(signal) in TerminationSignals
    ensures IsTerminationMessage(map["content" := pre + signal + post])
  {
    var k :| 0 <= k < |TerminationSignals| && TerminationSignals[k] == Upper(signal);
    assert OccursAt(Upper(signal), Upper(signal), 0);
    assert IsSubstring(TerminationSignals[k], Upper(Content(map["content" := signal])));
    TerminationAnyPosition(pre, signal, post);
  }

  /** The Critic's instructed approval, anywhere in its reply, ends the chat. */
  lemma CriticApprovalTerminates(pre: string, post: string)
    ensures IsTerminationMessage(map["content" := pre + "APPROVED - Content meets quality standards" + post])
  {
    var approval := "APPROVED - Content meets quality standards";
    UpperEquals(approval, TerminationSignals[1]);
    SignalAnywhereTerminates(pre, approval, post);
  }

  /** The Planner's instructed announcement, anywhere in its reply, ends the chat. */
  lemma PlannerCompletionTerminates(pre: string, post: string)
    ensures IsTerminationMessage(map["content" := pre + "TASK_COMPLETE" + post])
  {
    UpperEquals("TASK_COMPLETE", TerminationSignals[0]);
    SignalAnywhereTerminates(pre, "TASK_COMPLETE", post);
  }

  // ---------------------------------------------------------------------------
  // The topic menu
  // ---------------------------------------------------------------------------

  /** `DEMO_TOPIC`, kept when the choice selects nothing. */
  const DefaultTopic: string := "Python asyncio basics"

  /** The menu's `topics` list; entry `n - 1` is selected by typing `n`. */
  const MenuTopics: seq<string> := [
    "Python asyncio basics",
    "AutoGen agents",
    "Machine learning fundamentals",
    "RESTful API design",
    "Docker containerization basics"
  ]

  predicate IsDigitChar(c: char) { '0' <= c <= '9' }

  /** `s.isdigit()` on ASCII: non-empty and every character a digit. */
  predicate IsDigits(s: string)
  {
    |s| > 0 && forall i :: 0 <= i < |s| ==> IsDigitChar(s[i])
  }

  /** `int(s)` for a string of decimal digits. */
  function DecimalValue(s: string): nat
    requires forall i :: 0 <= i < |s| ==> IsDigitChar(s[i])
    decreases |s|
  {
    if s == [] then 0
    else
      var d := s[|s| - 1];
      assert IsDigitChar(d);
      DecimalValue(s[..|s| - 1]) * 10 + (d as int - '0' as int)
  }

  /** The topic chosen by the typed `choice`; it is always one of the menu's topics. */
  function ChooseTopic(choice: string): (topic: string)
    ensures topic in MenuTopics
  {
    if choice != "" && IsDigits(choice) && 1 <= DecimalValue(choice) <= 5
    then MenuTopics[DecimalValue(choice) - 1]
    else DefaultTopic
  }

  /** A string of `k` zero digits. */
  function Zeros(k: nat): (z: string)
    ensures |z| == k && forall i :: 0 <= i < k ==> z[i] == '0'
  {
    seq(k, _ => '0')
  }

  /** Digit strings whose value is zero are made of zeros only. */
  lemma {:induction false} ZeroValueIsZeros(s: string)
    requires forall i :: 0 <= i < |s| ==> IsDigitChar(s[i])
    ensures DecimalValue(s) == 0 <==> s == Zeros(|s|)
    decreases |s|
  {
    if s != [] {
      var init := s[..|s| - 1];
      ZeroValueIsZeros(init);
      if s == Zeros(|s|) {
        assert init == Zeros(|init|);
      }
      if DecimalValue(s) == 0 {
        assert s == init + [s[|s| - 1]];
      }
    }
  }

  /** A digit string below ten is zeros followed by the digit of its value. */
  lemma SmallValueIsPadded(s: string)
    requires IsDigits(s) && DecimalValue(s) < 10
    ensures s[..|s| - 1] == Zeros(|s| - 1)
    ensures DecimalValue(s) == s[|s| - 1] as int - '0' as int
  {
    var init := s[..|s| - 1];
    assert DecimalValue(init) == 0;
    ZeroValueIsZeros(init);
  }

  /** Leading zeros are ignored: zeros followed by digit `d` have the value of `d`. */
  lemma PaddedValue(k: nat, d: char)
    requires IsDigitChar(d)
    ensures DecimalValue(Zeros(k) + [d]) == d as int - '0' as int
  {
    var s := Zeros(k) + [d];
    assert s[..|s| - 1] == Zeros(k);
    ZeroValueIsZeros(Zeros(k));
  }

  /**
    The choice selects topic `n` exactly when it is some zeros followed by the
    digit `n`, for `n` in 1..5; any other input, the empty one included,
    keeps the default topic.
   */
  lemma ChooseTopicSpec(choice: string)
    ensures ChooseTopic(choice) ==
            if |choice| > 0 && choice[..|choice| - 1] == Zeros(|choice| - 1) && '1' <= choice[|choice| - 1] <= '5'
            then MenuTopics[choice[|choice| - 1] as int - '1' as int]
            else DefaultTopic
  {
    if |choice| > 0 {
      var k, d := |choice| - 1, choice[|choice| - 1];
      if choice[..k] == Zeros(k) && '1' <= d <= '5' {
        assert choice == Zeros(k) + [d];
        PaddedValue(k, d);
      } else if IsDigits(choice) && 1 <= DecimalValue(choice) <= 5 {
        SmallValueIsPadded(choice);
      }
    }
  }

  /** Typing "05" selects the Docker topic; "", "0", "6", "10" and "x" keep the default. */
  lemma ChooseTopicExamples()
    ensures ChooseTopic("05") == "Docker containerization basics"
    ensures ChooseTopic("3") == "Machine learning fundamentals"
    ensures ChooseTopic("") == DefaultTopic
    ensures ChooseTopic("0") == DefaultTopic
    ensures ChooseTopic("6") == DefaultTopic
    ensures ChooseTopic("10") == DefaultTopic
    ensures ChooseTopic("x") == DefaultTopic
  {
    ChooseTopicSpec("05");
    ChooseTopicSpec("3");
    ChooseTopicSpec("0");
    ChooseTopicSpec("6");
    ChooseTopicSpec("10");
  }
}
