# Antiplatelet dose bot: conversation form and dose calculator

The bot in `main.py` helps medical staff work out the doses of two antiplatelet
drugs: eptifibatide, and tirofiban (sold as Aggrastat). `/calculate` opens a
three-question form. The bot asks for the drug (one of two button texts), the
patient's weight in kg and the creatinine clearance in mL/min. It then replies
with:

- the bolus in mg;
- the infusion in mg/hour;
- a note when the dose has been corrected for renal insufficiency.

This project models that logic in Dafny in four modules:

- `Wrappers`: the `Option` type.
- `Decimal`: how an answer is read as a number. Commas become periods, the
  text is read as a decimal, and the value must be above zero.
- `Dosage`: the pure calculator. It is exact (`real`) arithmetic over the
  bot's formulas: the caps, the clearance thresholds and the renal flag.
- `Conversation`: the form. `Step` gives the behaviour on one message as a
  function, and `Run` on a sequence of messages. The class `Session` holds
  the stage and the stored drug and weight. It has one method per handler
  (`CalculateStart`, `ProcessDrugChoice`, `ProcessWeight`, `ProcessRenal`)
  and a `Handle` method that routes a message the way the dispatcher does.
  `Handle` is proved to agree with `Step`.

Points where `main.py` behaves differently from what one might expect, and
where the model follows `main.py`:

- `/calculate` only moves the form to the drug question. The previously
  stored drug and weight stay in the session data. The model keeps them, and
  `CalculateDiscardsEarlierAnswers` proves they can never influence a later
  reply. The stages read an answer only after overwriting it.
- A completed form returns to "no state" with empty data (`state.finish()`).
  It does not go back to the drug question.
- `/start`, `/help` and `/protocol` have handlers without a state filter, so
  they answer only when no form is open. Inside the form these texts go to
  the current stage's handler as ordinary answers and are refused.
- The clearance is never stored. It is used once, to compute the reply.
- Tirofiban's infusion is `weight × rate × 60` with no cap. The bolus and
  eptifibatide's infusion divide by 1000 to turn µg into mg, but this formula
  does not. So for 80 kg at Cl 50 the bot prints 720 "mg/hour", while the
  protocol text the bot sends lists a 40 mg/hour maximum. The model keeps the
  formula as written, and `TirofibanExceedsListedMaximum` states the
  consequence.

## Model

| member | source | states |
|---|---|---|
| `Decimal.ReplaceComma` | main.py:91 | every comma becomes a period, every other character is kept, the length is unchanged and no comma is left |
| `Decimal.ParseDecimal` | main.py:91 | accepts only non-empty text starting with a digit, sign or point; a leading minus gives a value ≤ 0, otherwise the value is ≥ 0 |
| `Decimal.ParseUnsigned` | main.py:91 | an unsigned decimal is accepted only when it is non-empty and starts with a digit or the point, and its value is ≥ 0 |
| `Decimal.ParsePositive` | main.py:90-93 | a text is accepted exactly when the decimal reading of its comma-replaced form exists and is above zero, and the accepted value is that reading; text starting with '-' is never accepted |
| `Decimal.SeparatorsInterchangeable` | main.py:91 | for every text, replacing commas is idempotent and a text is accepted, with the same value, exactly when its comma-replaced form is |
| `Decimal.CommaOrPoint` | main.py:90-93 | "whole,frac" and "whole.frac" are accepted alike, as whole + frac/10^len(frac) when that is above zero, and both are refused otherwise |
| `Decimal.PointSplitsWholeAndFraction` | main.py:91 | "whole.frac" reads as whole + frac/10^len(frac), which lies in [whole, whole + 1) |
| `Decimal.DigitsValueShowNat` | main.py:91 | reading the decimal digits of n gives back n |
| `Decimal.ParseShowNat` | main.py:91-93 | the written form of a natural number is read back exactly, and it is accepted as an answer exactly when it is not zero |
| `Decimal.CommaSeparatorExample` | main.py:91 | "70,5" is accepted as 70.5 |
| `Decimal.WholeNumberExamples` | main.py:109 | "70" and "40" are accepted as 70 and 40 |
| `Decimal.MinusSignRefused` | main.py:92-93 | any answer with a leading minus ("-5") is refused |
| `Dosage.Name` | main.py:35 | a drug's button text is non-empty and never starts with '/', so it is never a command |
| `Dosage.DrugOfName` | main.py:77 | a text is accepted as drug d exactly when it is d's button text, so it is the inverse of `Name` |
| `Dosage.Min` | main.py:119 | the result is at most both arguments and equals one of them |
| `Dosage.RenalAdjusted` | main.py:133 | the renal note is shown only for clearances below 50, and always for clearances below 30 |
| `Dosage.InfusionRate` | main.py:120-126 | the rate is the standard rate or half of it, and it is below the standard rate exactly when the renal note of main.py:133 is shown |
| `Dosage.Calculate` | main.py:118-133 | for weight > 0 both doses are positive; eptifibatide's bolus is ≤ 22.6 and its infusion ≤ 15; the renal flag is set exactly when the reduced rate was used |
| `Dosage.EptifibatideCaps` | main.py:119-121 | eptifibatide's bolus is 0.18·w below the 22.6 mg cap and the cap above it; its infusion is 0.06·w·rate below 15 mg/hour and 15 above it |
| `Dosage.ThresholdBoundaries` | main.py:118-133 | Cl = 50 gives eptifibatide rate 2 with no renal note, and Cl = 30 gives tirofiban rate 0.15 with no note; any Cl below the threshold gives rate 1 or 0.075 with the note |
| `Dosage.DoseMonotone` | main.py:118-127 | a heavier patient or a higher clearance never gets a smaller bolus or infusion |
| `Dosage.TirofibanExceedsListedMaximum` | main.py:124-127 | tirofiban's infusion has no cap: from 9 kg up it exceeds the 40 mg/hour listed in the protocol text, at every clearance |
| `Dosage.WorkedExamples` | main.py:118-127 | eptifibatide 70 kg at Cl 40 gives 12.6 mg and 4.2 mg/hour with the note; tirofiban 80 kg gives 2.0 mg and 360 at Cl 20 (with the note) or 720 at Cl 50 (without it) |
| `Conversation.Step` | main.py:69-142 | every handler keeps the session consistent; the form closes only by leaving the session as it was or by resetting it; a result always comes with the reset |
| `Conversation.Run` | main.py:69-142 | a sequence of messages gives one reply slot per message and keeps the session consistent |
| `Conversation.StepIndistinguishable` | main.py:81-115 | two sessions with the same stage, differing only in answers the stage will overwrite before reading, get the same reply and stay indistinguishable |
| `Conversation.RunIndistinguishable` | main.py:81-115 | such sessions get the same replies to every sequence of messages |
| `Conversation.CalculateDiscardsEarlierAnswers` | main.py:69-71 | after /calculate, whatever answers were stored before, every later message gets the same reply |
| `Conversation.RefusedInputChangesNothing` | main.py:75-142 | inside the form, a message leaves the session unchanged exactly when it fails validation, and a refused message gets the stage's correction |
| `Conversation.ConsistentSessionsAlwaysReply` | main.py:75-142 | in a consistent session every message inside the form gets a reply, so the uncaught error of a missing answer never happens |
| `Conversation.ReachableSessionsConsistent` | main.py:69-142 | every session a new conversation reaches through any sequence of messages is consistent |
| `Conversation.NumberIsNotACommand` | main.py:69-70 | an accepted number is never a command text |
| `Conversation.DrugAnswerAccepted` | main.py:81-85 | a valid drug name stores the drug, keeps the weight, moves to the weight question and asks for it |
| `Conversation.WeightAnswerAccepted` | main.py:95-99 | a valid weight stores it, keeps the drug, moves to the clearance question and asks for it |
| `Conversation.ClearanceAnswerAccepted` | main.py:113-138 | a valid clearance replies with the calculator's result for the stored drug and weight and resets the session |
| `Conversation.CompleteDialogue` | main.py:69-138 | from any state, /calculate followed by a drug name, a weight and a clearance gives the three prompts, then the result for exactly those answers, and closes the form |
| `Conversation.EptifibatideDialogueExample` | main.py:118-121 | typing Эптифибатид, 70 and 40 after /calculate gives bolus 12.6 and infusion 4.2 with the renal note |
| `Conversation.Session.constructor` | main.py:13-14 | a new conversation is in no state with no stored answers |
| `Conversation.Session.CalculateStart` | main.py:69-72 | in every stage, moves to the drug question, keeps the stored drug and weight, and prompts for the drug |
| `Conversation.Session.ProcessDrugChoice` | main.py:75-85 | a valid name stores the drug and moves to the weight question; anything else changes nothing and gets the choice correction |
| `Conversation.Session.ProcessWeight` | main.py:88-103 | a positive number stores the weight and moves to the clearance question; anything else changes nothing and gets the weight correction |
| `Conversation.Session.ProcessRenal` | main.py:106-142 | a positive number replies with the doses for the stored drug and weight and clears the session; anything else changes nothing and gets the clearance correction |
| `Conversation.Session.Handle` | main.py:41-142 | routes a message as the dispatcher does; the new session and the reply are exactly what `Step` gives, and the session stays consistent |

## Left out

- The bot framework is not modelled: its bootstrap, the dispatcher, polling, command registration (`set_commands`) and the async/await structure (main.py:1-24, main.py:144-146). A handler call is a direct method call, and `state.proxy()` is a direct field update.
- The in-memory storage keyed by chat is not modelled. One `Session` stands for one conversation, and conversations do not interact.
- Reply texts and keyboards are left out (main.py:32-66 and the messages in every handler). Replies are modelled only by kind (`Reply`), together with the values a result reports.
- Floating point is left out: all values are exact reals, and the `:.2f` formatting of the reply (main.py:130-132) is not modelled. IEEE rounding also changes which branch the handlers take in two ways the model does not capture. A tiny positive text such as "0." followed by 400 zeros and a 1 becomes 0.0 in `float()` and is refused by main.py:92 and main.py:110, while the model accepts it. A clearance such as "49.99999999999999999" becomes 50.0, so eptifibatide gets rate 2 and no renal note, while the model gives rate 1 with the note.
- `ParseDecimal` reads only an optional sign, decimal digits and at most one point. Python's `float()` also accepts surrounding whitespace, exponents, `inf`/`nan` (which the `<= 0` check would let through), digit-group underscores and non-ASCII digits. The model refuses all of these.
- `Step` recognises a command only when the whole text is exactly `/calculate`, `/start`, `/help` or `/protocol`. The framework also matches a command followed by `@botname` or arguments, and it ignores case.
- Messages without text (stickers, photos) are never delivered to these handlers, so they are not modelled.
- `Step` handles a clearance answer arriving when no drug or weight is stored. In the source, reading the missing value raises a `KeyError` that the handler does not catch. The model treats this as no reply and no change. The case is unreachable: the constructor starts consistent, `Step` and `Run` preserve `Consistent`, and `ConsistentSessionsAlwaysReply` shows that a consistent session always gets a reply inside the form.
