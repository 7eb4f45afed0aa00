/**
 * The host's node API as the two nodes use it: the node state they read attributes from
 * and write transient entries to, the action they return, and their declared inputs and outputs.
 */
module Tree {
  import opened Results
  import opened Exceptions
  import opened JsonValues

  /** Which of the two diagnostic lines a caught exception leaves behind. */
  datatype Note = ExceptionNote | StackTraceNote

  /**
   * A transient entry: a JSON value, or a diagnostic line about an exception. The line's
   * text (a timestamp, the message, the stack trace) is not modelled, only which exception it is about.
   */
  datatype Stored = Value(json: Json) | Diagnostic(note: Note, cause: Thrown)

  /** The node state of one tree pass. */
  class NodeState {
    /** What get(key) finds, as it stood when the node was entered. */
    var values: map<string, Json>
    /** The entries written with putTransient. */
    var transient: map<string, Stored>

    constructor (values: map<string, Json>, transient: map<string, Stored>)
      ensures this.values == values && this.transient == transient
    {
      this.values := values;
      this.transient := transient;
    }

    /** get(key): the value under key, or null when there is none. */
    function Get(key: string): (r: Option<Json>)
      reads this
      ensures r.Some? <==> key in values
      ensures r.Some? ==> r.value == values[key]
    {
      if key in values then Some(values[key]) else None
    }

    /** putTransient(key, value): adds or replaces one transient entry and changes nothing else. */
    method PutTransient(key: string, value: Stored)
      modifies this`transient
      ensures transient == old(transient)[key := value]
    {
      transient := transient[key := value];
    }
  }

  /** What the node returns: the outcome it goes to, or an exception that escapes to the host. */
  datatype Action = GoTo(outcome: string) | Raised(exception: Thrown)

  /** The outcome a node goes to and the transient entries it writes on the way. */
  datatype Step = Step(outcome: string, writes: map<string, Stored>)

  datatype InputState = InputState(name: string, required: bool)
  datatype OutputState = OutputState(name: string)

  /** The transient key the raw decision response is stored under. */
  const DecisionKey := "decision"

  /** The prefix both nodes put before their diagnostic keys; `appender` is the plugin's log appender text. */
  function LoggerPrefix(appender: string): string {
    "[PingAuthorizeNode]" + appender
  }

  function ExceptionKey(appender: string): string {
    LoggerPrefix(appender) + "Exception"
  }

  function StackTraceKey(appender: string): string {
    LoggerPrefix(appender) + "StackTrace"
  }

  /** The two entries written when an exception is caught. */
  function Diagnostics(appender: string, cause: Thrown): map<string, Stored> {
    map[ExceptionKey(appender) := Diagnostic(ExceptionNote, cause),
        StackTraceKey(appender) := Diagnostic(StackTraceNote, cause)]
  }

  /** The catch block: records the two diagnostic entries for the caught exception. */
  method RecordException(state: NodeState, appender: string, cause: Thrown)
    modifies state`transient
    ensures state.transient == old(state.transient) + Diagnostics(appender, cause)
  {
    state.PutTransient(ExceptionKey(appender), Diagnostic(ExceptionNote, cause));
    state.PutTransient(StackTraceKey(appender), Diagnostic(StackTraceNote, cause));
  }

  /** The three transient keys are pairwise distinct, so the two diagnostic entries are two and leave the decision entry alone. */
  lemma DiagnosticKeysDistinct(appender: string, cause: Thrown)
    ensures ExceptionKey(appender) != StackTraceKey(appender)
    ensures ExceptionKey(appender) != DecisionKey && StackTraceKey(appender) != DecisionKey
    ensures |Diagnostics(appender, cause).Keys| == 2
  {
    assert |ExceptionKey(appender)| != |StackTraceKey(appender)|;
    assert ExceptionKey(appender)[0] == '[' && StackTraceKey(appender)[0] == '[';
    var d := Diagnostics(appender, cause);
    assert d.Keys == {ExceptionKey(appender)} + {StackTraceKey(appender)};
  }
}
