/**
 * The per-conversation form that the bot's message handlers drive (main.py:26-30,
 * main.py:68-142): which answer is awaited, what has been stored so far, and the
 * reply each message gets.
 *
 * `Step` is the whole behaviour on one message as a function; the class `Session`
 * is the state the handlers update in place, with one method per handler.
 */
module Conversation {
  import opened Wrappers
  import opened Decimal
  import opened Dosage

  /** The form's states (main.py:27-30); NoState is the state before /calculate and after finish(). */
  datatype Stage = NoState | DrugChoice | Weight | RenalFunction

  /** The stage together with the stored answers (the session data of the handlers). */
  datatype SessionState = SessionState(stage: Stage, drug: Option<Drug>, weight: Option<real>)
  {
    /**
     * What every session reached through the handlers satisfies: a stored weight is
     * positive, and the answers a stage will read have been stored.
     */
    predicate Consistent() {
      && (weight.Some? ==> weight.value > 0.0)
      && (stage == Weight ==> drug.Some?)
      && (stage == RenalFunction ==> drug.Some? && weight.Some?)
    }
  }

  /** A new conversation, and the one state.finish() leaves behind. */
  const Initial: SessionState := SessionState(NoState, None, None)

  /** The replies, by kind; the static texts are not modelled. */
  datatype Reply =
    | Welcome                // /start and /help (main.py:41-49)
    | Protocol               // /protocol (main.py:52-66)
    | ChooseDrug             // main.py:72
    | AskWeight              // main.py:85
    | AskClearance           // main.py:99
    | InvalidChoice          // main.py:78
    | InvalidWeight          // main.py:102
    | InvalidClearance       // main.py:141
    | Result(drug: Drug, weight: real, clearance: real, dosage: DoseResult)  // main.py:129-137

  const CalculateCommand: string := "/calculate"

  /**
   * One incoming message. /calculate is handled in every stage; the other commands
   * only when no form is open, since their handlers carry no state filter; inside
   * the form every text goes to the handler of the current stage. In NoState a
   * plain text has no handler and gets no reply.
   */
  function Step(s: SessionState, text: string): (r: (SessionState, Option<Reply>))
    ensures s.Consistent() ==> r.0.Consistent()
    ensures r.0.stage == NoState ==> r.0 == s || r.0 == Initial
    ensures r.1.Some? && r.1.value.Result? ==> r.0 == Initial
  {
    if text == CalculateCommand then
      (s.(stage := DrugChoice), Some(ChooseDrug))
    else
      match s.stage
      case NoState =>
        if text == "/start" || text == "/help" then (s, Some(Welcome))
        else if text == "/protocol" then (s, Some(Protocol))
        else (s, None)
      case DrugChoice =>
        (match DrugOfName(text)
         case None => (s, Some(InvalidChoice))
         case Some(drug) => (s.(stage := Weight, drug := Some(drug)), Some(AskWeight)))
      case Weight =>
        (match ParsePositive(text)
         case None => (s, Some(InvalidWeight))
         case Some(weight) => (s.(stage := RenalFunction, weight := Some(weight)), Some(AskClearance)))
      case RenalFunction =>
        match ParsePositive(text)
        case None => (s, Some(InvalidClearance))
        case Some(clearance) =>
          if s.drug.None? || s.weight.None? then
            // reading a missing answer raises KeyError, which the handler does not catch
            (s, None)
          else
            var drug, weight := s.drug.value, s.weight.value;
            (Initial, Some(Result(drug, weight, clearance, Calculate(drug, weight, clearance))))
  }

  /** A sequence of messages, in arrival order: the final session and one reply slot per message. */
  function Run(s: SessionState, texts: seq<string>): (r: (SessionState, seq<Option<Reply>>))
    ensures |r.1| == |texts|
    ensures s.Consistent() ==> r.0.Consistent()
    decreases |texts|
  {
    if texts == [] then (s, [])
    else
      var first := Step(s, texts[0]);
      var rest := Run(first.0, texts[1..]);
      (rest.0, [first.1] + rest.1)
  }

  /**
   * Two sessions a handler cannot tell apart: the same stage, and the same stored
   * answers where the stage will still read them.
   */
  predicate Indistinguishable(s1: SessionState, s2: SessionState) {
    && s1.stage == s2.stage
    && (s1.stage in {Weight, RenalFunction} ==> s1.drug == s2.drug)
    && (s1.stage == RenalFunction ==> s1.weight == s2.weight)
  }

  /** Each stage reads only the answers Indistinguishable keeps, and overwrites the rest first. */
  lemma StepIndistinguishable(s1: SessionState, s2: SessionState, text: string)
    requires Indistinguishable(s1, s2)
    ensures Step(s1, text).1 == Step(s2, text).1
    ensures Indistinguishable(Step(s1, text).0, Step(s2, text).0)
  {
  }

  /** Indistinguishable sessions give the same replies to every sequence of messages. */
  lemma {:induction false} RunIndistinguishable(s1: SessionState, s2: SessionState, texts: seq<string>)
    requires Indistinguishable(s1, s2)
    ensures Run(s1, texts).1 == Run(s2, texts).1
    ensures Indistinguishable(Run(s1, texts).0, Run(s2, texts).0)
    decreases |texts|
  {
    if texts != [] {
      StepIndistinguishable(s1, s2, texts[0]);
      RunIndistinguishable(Step(s1, texts[0]).0, Step(s2, texts[0]).0, texts[1..]);
    }
  }

  /**
   * /calculate discards a half-filled form in effect: it leaves the stored answers
   * in place, yet what follows gets the same replies whatever they were.
   */
  lemma CalculateDiscardsEarlierAnswers(s1: SessionState, s2: SessionState, texts: seq<string>)
    ensures Run(s1, [CalculateCommand] + texts).1 == Run(s2, [CalculateCommand] + texts).1
  {
    var t := [CalculateCommand] + texts;
    assert t[0] == CalculateCommand && t[1..] == texts;
    RunIndistinguishable(Step(s1, CalculateCommand).0, Step(s2, CalculateCommand).0, texts);
  }

  /**
   * Inside the form, the session stays exactly as it was precisely when the
   * message is refused, and a refused message is answered with the stage's
   * correction.
   */
  lemma RefusedInputChangesNothing(s: SessionState, text: string)
    requires s.Consistent() && s.stage != NoState && text != CalculateCommand
    ensures s.stage == DrugChoice ==>
              (Step(s, text).0 == s <==> DrugOfName(text).None?)
              && (DrugOfName(text).None? ==> Step(s, text).1 == Some(InvalidChoice))
    ensures s.stage == Weight ==>
              (Step(s, text).0 == s <==> ParsePositive(text).None?)
              && (ParsePositive(text).None? ==> Step(s, text).1 == Some(InvalidWeight))
    ensures s.stage == RenalFunction ==>
              (Step(s, text).0 == s <==> ParsePositive(text).None?)
              && (ParsePositive(text).None? ==> Step(s, text).1 == Some(InvalidClearance))
  {
  }

  /**
   * A session reached through the handlers never hits the uncaught error of
   * ProcessRenal: inside the form every message gets a reply.
   */
  lemma ConsistentSessionsAlwaysReply(s: SessionState, text: string)
    requires s.Consistent()
    ensures Step(s, text).1.Some? || s.stage == NoState
  {
  }

  /** Every session that a new conversation reaches is consistent, so it always gets a reply in the form. */
  lemma ReachableSessionsConsistent(texts: seq<string>)
    ensures Run(Initial, texts).0.Consistent()
  {
  }

  /** Neither drug name is the /calculate command. */
  lemma NameIsNotACommand(drug: Drug)
    ensures Name(drug) != CalculateCommand
  {
    assert CalculateCommand[0] == '/';
  }

  /** A command is never read as a number, so it can never be taken for an answer. */
  lemma NumberIsNotACommand(text: string)
    requires ParsePositive(text).Some?
    ensures text != CalculateCommand && text != "/start" && text != "/help" && text != "/protocol"
  {
    assert text[0] != '/';
  }

  /** A drug name in DrugChoice is stored and the weight is asked for. */
  lemma DrugAnswerAccepted(s: SessionState, name: string)
    requires s.stage == DrugChoice && DrugOfName(name).Some?
    ensures Step(s, name) == (s.(stage := Weight, drug := DrugOfName(name)), Some(AskWeight))
  {
    NameIsNotACommand(DrugOfName(name).value);
    assert name != CalculateCommand;
  }

  /** A positive number in Weight is stored and the clearance is asked for. */
  lemma WeightAnswerAccepted(s: SessionState, text: string)
    requires s.stage == Weight && ParsePositive(text).Some?
    ensures Step(s, text) == (s.(stage := RenalFunction, weight := ParsePositive(text)), Some(AskClearance))
  {
    NumberIsNotACommand(text);
  }

  /** A positive number in RenalFunction gives the doses for the stored answers and closes the form. */
  lemma ClearanceAnswerAccepted(s: SessionState, text: string)
    requires s.stage == RenalFunction && s.drug.Some? && s.weight.Some? && ParsePositive(text).Some?
    ensures var drug, weight, clearance := s.drug.value, s.weight.value, ParsePositive(text).value;
            Step(s, text) == (Initial, Some(Result(drug, weight, clearance, Calculate(drug, weight, clearance))))
  {
    NumberIsNotACommand(text);
  }

  /**
   * A complete dialogue from any state: /calculate, a drug name, a valid weight and a
   * valid clearance produce the calculator's result for exactly those answers and
   * close the form.
   */
  lemma CompleteDialogue(s: SessionState, name: string, weightText: string, clearanceText: string)
    requires DrugOfName(name).Some?
    requires ParsePositive(weightText).Some? && ParsePositive(clearanceText).Some?
    ensures var drug, weight, clearance :=
              DrugOfName(name).value, ParsePositive(weightText).value, ParsePositive(clearanceText).value;
            var s1 := Step(s, CalculateCommand);
            var s2 := Step(s1.0, name);
            var s3 := Step(s2.0, weightText);
            var s4 := Step(s3.0, clearanceText);
            && [s1.1, s2.1, s3.1] == [Some(ChooseDrug), Some(AskWeight), Some(AskClearance)]
            && s4 == (Initial, Some(Result(drug, weight, clearance, Calculate(drug, weight, clearance))))
  {
    var s1 := s.(stage := DrugChoice);
    DrugAnswerAccepted(s1, name);
    var s2 := s1.(stage := Weight, drug := DrugOfName(name));
    WeightAnswerAccepted(s2, weightText);
    ClearanceAnswerAccepted(s2.(stage := RenalFunction, weight := ParsePositive(weightText)), clearanceText);
  }

  /** The first worked case typed in: eptifibatide, 70 kg, Cl 40 from a new conversation. */
  lemma EptifibatideDialogueExample()
    ensures var s1 := Step(Initial, CalculateCommand).0;
            var s2 := Step(s1, EptifibatideName).0;
            var s3 := Step(s2, "70").0;
            Step(s3, "40").1 == Some(Result(Eptifibatide, 70.0, 40.0, DoseResult(12.6, 4.2, true)))
  {
    WholeNumberExamples();
    CompleteDialogue(Initial, EptifibatideName, "70", "40");
    WorkedExamples();
  }

  /**
   * The session data of one conversation, updated in place by the handlers.
   */
  class Session {
    var stage: Stage
    var drug: Option<Drug>
    var weight: Option<real>

    function State(): SessionState
      reads this
    {
      SessionState(stage, drug, weight)
    }

    predicate Valid()
      reads this
    {
      State().Consistent()
    }

    constructor ()
      ensures Valid() && State() == Initial
    {
      stage, drug, weight := NoState, None, None;
    }

    /** /calculate (main.py:69-72): opens the form in every stage; the stored answers stay. */
    method CalculateStart() returns (reply: Reply)
      requires Valid()
      modifies this
      ensures Valid()
      ensures stage == DrugChoice && drug == old(drug) && weight == old(weight)
      ensures reply == ChooseDrug
    {
      stage := DrugChoice;
      reply := ChooseDrug;
    }

    /** The drug answer (main.py:75-85): one of the two names, or a correction. */
    method ProcessDrugChoice(text: string) returns (reply: Reply)
      requires Valid() && stage == DrugChoice
      modifies this
      ensures Valid()
      ensures match DrugOfName(text)
              case Some(d) => stage == Weight && drug == Some(d) && weight == old(weight) && reply == AskWeight
              case None => unchanged(this) && reply == InvalidChoice
    {
      var choice := DrugOfName(text);
      if choice.None? {
        reply := InvalidChoice;
        return;
      }
      drug := choice;
      stage := Weight;
      reply := AskWeight;
    }

    /** The weight answer (main.py:88-103): a positive number, or a correction. */
    method ProcessWeight(text: string) returns (reply: Reply)
      requires Valid() && stage == Weight
      modifies this
      ensures Valid()
      ensures match ParsePositive(text)
              case Some(w) => stage == RenalFunction && weight == Some(w) && drug == old(drug) && reply == AskClearance
              case None => unchanged(this) && reply == InvalidWeight
    {
      var value := ParsePositive(text);
      if value.None? {
        reply := InvalidWeight;
        return;
      }
      weight := value;
      stage := RenalFunction;
      reply := AskClearance;
    }

    /**
     * The clearance answer (main.py:106-142): a positive number gives the doses for
     * the stored drug and weight and finishes the form; anything else a correction.
     */
    method ProcessRenal(text: string) returns (reply: Reply)
      requires Valid() && stage == RenalFunction
      modifies this
      ensures Valid()
      ensures match ParsePositive(text)
              case Some(cl) =>
                && State() == Initial
                && reply == Result(old(drug).value, old(weight).value, cl,
                                   Calculate(old(drug).value, old(weight).value, cl))
              case None => unchanged(this) && reply == InvalidClearance
    {
      var value := ParsePositive(text);
      if value.None? {
        reply := InvalidClearance;
        return;
      }
      var cl := value.value;
      var d, w := drug.value, weight.value;
      var dosage := Calculate(d, w, cl);
      reply := Result(d, w, cl, dosage);
      stage, drug, weight := NoState, None, None;
    }

    /** Routes one message to its handler, as the dispatcher does; Step states the outcome. */
    method Handle(text: string) returns (reply: Option<Reply>)
      requires Valid()
      modifies this
      ensures Valid()
      ensures (State(), reply) == Step(old(State()), text)
    {
      if text == CalculateCommand {
        var r := CalculateStart();
        reply := Some(r);
        return;
      }
      match stage {
        case NoState =>
          if text == "/start" || text == "/help" {
            reply := Some(Welcome);
          } else if text == "/protocol" {
            reply := Some(Protocol);
          } else {
            reply := None;
          }
        case DrugChoice =>
          var r := ProcessDrugChoice(text);
          reply := Some(r);
        case Weight =>
          var r := ProcessWeight(text);
          reply := Some(r);
        case RenalFunction =>
          var r := ProcessRenal(text);
          reply := Some(r);
      }
    }
  }
}
