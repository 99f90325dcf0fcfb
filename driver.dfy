/**
 * `main` of homework.py: render a workout's summary and print it unless it
 * is the very message printed last. The module-global `previous_message`
 * and standard output become the fields of a `Reporter`.
 */
module Driver {

  import opened Wrappers
  import opened InfoMessages
  import opened Trainings

  /** The message `main` remembers after being given `messages` in turn, starting from `previous`. */
  function LastOf(previous: Option<string>, messages: seq<string>): Option<string>
  {
    if messages == [] then previous else Some(messages[|messages| - 1])
  }

  /**
   * The lines printed when `main` is given `messages` in turn and
   * `previous_message` starts as `previous`: a message is printed exactly
   * when it differs from the one before it.
   */
  function Printed(previous: Option<string>, messages: seq<string>): (lines: seq<string>)
    ensures |lines| <= |messages|
    ensures forall line :: line in lines ==> line in messages
    decreases |messages|
  {
    if messages == [] then []
    else
      (if previous != Some(messages[0]) then [messages[0]] else [])
      + Printed(Some(messages[0]), messages[1..])
  }

  /** One more call of `main` prints its message iff it differs from the last one. */
  lemma {:induction false} PrintedSnoc(previous: Option<string>, messages: seq<string>, m: string)
    ensures Printed(previous, messages + [m])
         == Printed(previous, messages) + (if LastOf(previous, messages) != Some(m) then [m] else [])
    decreases |messages|
  {
    if messages != [] {
      assert (messages + [m])[0] == messages[0];
      assert (messages + [m])[1..] == messages[1..] + [m];
      PrintedSnoc(Some(messages[0]), messages[1..], m);
    }
  }

  /**
   * Nothing printed repeats the line just before it, and the first line
   * printed differs from the message remembered at the start.
   */
  lemma {:induction false} PrintedNoAdjacentDuplicates(previous: Option<string>, messages: seq<string>)
    ensures var lines := Printed(previous, messages);
      && (|lines| > 0 ==> previous != Some(lines[0]))
      && forall i :: 0 <= i < |lines| - 1 ==> lines[i] != lines[i + 1]
    decreases |messages|
  {
    if messages != [] {
      PrintedNoAdjacentDuplicates(Some(messages[0]), messages[1..]);
    }
  }

  /**
   * A run of messages in which no message repeats the one before it (nor the
   * remembered one) is printed in full.
   */
  lemma {:induction false} PrintedAllWhenNoRepeats(previous: Option<string>, messages: seq<string>)
    requires |messages| > 0 ==> previous != Some(messages[0])
    requires forall i :: 0 <= i < |messages| - 1 ==> messages[i] != messages[i + 1]
    ensures Printed(previous, messages) == messages
    decreases |messages|
  {
    if messages != [] {
      var rest := messages[1..];
      assert forall i :: 0 <= i < |rest| - 1 ==> rest[i] == messages[i + 1];
      PrintedAllWhenNoRepeats(Some(messages[0]), rest);
    }
  }

  /** Giving `main` the same message twice in a row prints it at most once. */
  lemma RepeatPrintedOnce(previous: Option<string>, messages: seq<string>, m: string)
    ensures Printed(previous, messages + [m, m]) == Printed(previous, messages + [m])
  {
    PrintedSnoc(previous, messages + [m], m);
    assert messages + [m] + [m] == messages + [m, m];
  }

  /** The state `main` keeps between calls, together with what it has printed. */
  class Reporter {
    /** Stands for the `:.3f` rendering of a number. */
    const fmt3: real -> string
    /** The module-global `previous_message`. */
    var previousMessage: Option<string>
    /** The lines printed so far. */
    var output: seq<string>
    /** Every message `main` has been given so far. */
    ghost var received: seq<string>

    ghost predicate Valid()
      reads this
    {
      previousMessage == LastOf(None, received) && output == Printed(None, received)
    }

    /** Program start: `previous_message = None` and nothing printed. */
    constructor (fmt3: real -> string)
      ensures Valid() && this.fmt3 == fmt3
      ensures previousMessage == None && output == [] && received == []
    {
      this.fmt3 := fmt3;
      previousMessage := None;
      output := [];
      received := [];
    }

    /**
     * The line `main` renders for a workout: it opens with the type label
     * followed by the workout's class name.
     */
    function Message(w: Workout): (m: string)
      requires Computable(w)
      ensures |m| > |TypeLabel| + |TypeName(w)|
      ensures m[..|TypeLabel|] == TypeLabel
      ensures m[|TypeLabel|..|TypeLabel| + |TypeName(w)|] == TypeName(w)
    {
      GetMessage(ShowTrainingInfo(w), fmt3)
    }

    /**
     * `main`: print the workout's message iff it differs from the previous
     * message, and remember it.
     */
    method Report(w: Workout) returns (printed: bool)
      requires Valid() && Computable(w)
      modifies this
      ensures Valid()
      ensures printed <==> old(previousMessage) != Some(Message(w))
      ensures previousMessage == Some(Message(w))
      ensures output == old(output) + (if printed then [Message(w)] else [])
      ensures received == old(received) + [Message(w)]
    {
      var info := ShowTrainingInfo(w);
      var message := GetMessage(info, fmt3);
      printed := previousMessage != Some(message);
      if printed {
        output := output + [message];
        previousMessage := Some(message);
      }
      PrintedSnoc(None, received, message);
      received := received + [message];
    }
  }
}
