/**
 * G-code commands sent to the controller through the `gcode/script` query,
 * the verdict `gcmd_run` draws from the controller's reply, and the
 * operator feedback built by `kprint`.
 */
module Gcode {

  /** Exceptions raised in the service. Only `Error`, the service's own
      exception class, is ever caught; `KeyError` and `IndexError` stand for
      Python's failed dictionary and list lookups. */
  datatype Exc = Error(msg: string) | KeyError(key: string) | IndexError

  /** How a Python statement ends: normally, or by raising an exception. */
  datatype Status = Normal | Raised(exc: Exc)

  /** The controller's reply to a query: a result, or an `error` mapping. */
  datatype Response = Answered | Errored(error: map<string, string>)

  /** The `TYPE=` of a `RESPOND` command. */
  datatype MsgType = CommandType | ErrorType

  /** A probe point; each coordinate is kept as the text Python's `str()`
      gives for it, which is what the `G0` command carries. */
  datatype Point = Point(x: string, y: string, z: string)

  /** The commands the service issues. */
  datatype Cmd =
    | SaveState
    | Absolute
    | MoveTo(p: Point)
    | Settle
    | TestResonances(axis: string)
    | Respond(kind: MsgType, msg: string)
    | RestoreState

  function TypeName(kind: MsgType): string
  {
    match kind
    case CommandType => "command"
    case ErrorType => "error"
  }

  /** The script text sent for a command. */
  function Script(c: Cmd): string
  {
    match c
    case SaveState => "SAVE_GCODE_STATE NAME=manual_resonance_run"
    case Absolute => "G90"
    case MoveTo(p) => "G0 X" + p.x + " Y" + p.y + " Z" + p.z
    case Settle => "M400"
    case TestResonances(axis) => "TEST_RESONANCES AXIS=" + axis
    case Respond(kind, msg) => "RESPOND TYPE=" + TypeName(kind) + " MSG='" + msg + "'"
    case RestoreState => "RESTORE_GCODE_STATE NAME=manual_resonance_run MOVE=1"
  }

  const ErrorTag := "RESPOND TYPE=error "
  const CommandTag := "RESPOND TYPE=command "

  /** What `gcmd_run` makes of the reply to its query: a reply carrying an
      `error` mapping raises `Error` with that mapping's `message` (and a
      `KeyError` when the mapping has none); any other reply returns. */
  function Check(resp: Response): (st: Status)
    ensures st.Normal? <==> resp.Answered?
    ensures st.Raised? && "message" in resp.error ==> st.exc == Error(resp.error["message"])
    ensures st.Raised? && "message" !in resp.error ==> st.exc == KeyError("message")
  {
    match resp
    case Answered => Normal
    case Errored(error) =>
      if "message" in error then Raised(Error(error["message"])) else Raised(KeyError("message"))
  }

  /** The command `kprint(msg, error)` sends: its script is tagged
      `TYPE=error` exactly when `error` is set, `TYPE=command` otherwise,
      and it carries `msg` unchanged. */
  function Kprint(msg: string, error: bool): (c: Cmd)
    ensures c.Respond? && c.msg == msg
    ensures error <==> ErrorTag <= Script(c)
    ensures !error <==> CommandTag <= Script(c)
  {
    var kind := if error then ErrorType else CommandType;
    var s := Script(Respond(kind, msg));
    assert s == "RESPOND TYPE=" + TypeName(kind) + " MSG='" + msg + "'";
    assert s[13] == if error then 'e' else 'c';
    Respond(kind, msg)
  }
}
