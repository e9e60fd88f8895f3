/**
 * The command value types of commands.py: the `Action` enumeration with its
 * display strings, and the `Command` record of dispatch metadata.
 */
module Commands {
  import opened Options

  /** The four members of the `Action` enumeration. */
  datatype Action = NoAction | TakePhoto | StartRecording | StopRecording

  /** The enumeration value of each member. */
  function Value(a: Action): (v: nat)
    ensures v < 4
    ensures a == NoAction ==> v == 0
    ensures a == TakePhoto ==> v == 1
    ensures a == StartRecording ==> v == 2
    ensures a == StopRecording ==> v == 3
  {
    match a
    case NoAction => 0
    case TakePhoto => 1
    case StartRecording => 2
    case StopRecording => 3
  }

  /** Lookup by value, `Action(v)`; a value that is no member's fails (None). */
  function FromValue(v: int): (r: Option<Action>)
    ensures r.Some? <==> 0 <= v < 4
    ensures r.Some? ==> Value(r.value) == v
  {
    if v == 0 then Some(NoAction)
    else if v == 1 then Some(TakePhoto)
    else if v == 2 then Some(StartRecording)
    else if v == 3 then Some(StopRecording)
    else None
  }

  /** Every member is found again from its value: the values are distinct. */
  lemma ValueRoundTrip(a: Action)
    ensures FromValue(Value(a)) == Some(a)
  {
  }

  /** The table `__str__` looks a member up in. */
  const DisplayNames: map<Action, string> :=
    map[NoAction := "No Action",
        TakePhoto := "Take Photo",
        StartRecording := "Start Recording",
        StopRecording := "Stop Recording"]

  /** The fallback `__str__` answers for a member missing from the table. */
  const Fallback: string := "--"

  /** `str(a)`: the table entry for `a`, or the fallback when there is none. */
  function ToString(a: Action): (s: string)
    ensures a == NoAction ==> s == "No Action"
    ensures a == TakePhoto ==> s == "Take Photo"
    ensures a == StartRecording ==> s == "Start Recording"
    ensures a == StopRecording ==> s == "Stop Recording"
  {
    if a in DisplayNames then DisplayNames[a] else Fallback
  }

  /** The table covers every member, so the fallback is never answered. */
  lemma ToStringNeverFallback(a: Action)
    ensures ToString(a) != Fallback
  {
  }

  /** Distinct members have distinct display strings. */
  lemma ToStringInjective(a: Action, b: Action)
    ensures ToString(a) == ToString(b) ==> a == b
  {
  }

  /** The machine position a command may be stamped with. */
  datatype Position = Position(x: int, y: int, z: int)

  /**
   * A command sent over serial with its metadata: the text, the sequence it
   * belongs to, the action to report once it completes, whether it may be sent
   * before the previous command completes, where the machine was when it was
   * sent, and whether its reply is wanted.
   */
  datatype Command = Command(
    text: string,
    sequence: Option<int>,
    action: Option<Action>,
    instant: bool,
    pos: Option<Position>,
    response: bool)

  /**
   * The `Command` constructor with its keyword defaults. Every argument is
   * stored as given except `pos`, which is always stored as None.
   */
  function NewCommand(text: string, sequence: Option<int> := None, action: Option<Action> := None,
                      instant: bool := false, pos: Option<Position> := None,
                      response: bool := false): (c: Command)
    ensures c.text == text && c.sequence == sequence && c.action == action
    ensures c.instant == instant && c.response == response
    ensures c.pos == None
  {
    Command(text, sequence, action, instant, None, response)
  }

  /** With only the text given, a command has no sequence, no action, and both flags false. */
  lemma NewCommandDefaults(text: string)
    ensures NewCommand(text) == Command(text, None, None, false, None, false)
  {
  }

  /** The `pos` argument has no effect on the command built. */
  lemma NewCommandIgnoresPos(text: string, sequence: Option<int>, action: Option<Action>,
                             instant: bool, response: bool, p: Option<Position>)
    ensures NewCommand(text, sequence, action, instant, p, response)
         == NewCommand(text, sequence, action, instant, None, response)
  {
  }
}
