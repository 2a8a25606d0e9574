/** The `Identity` enum: the role a freshly specialised process takes, and the
    integer that stands for it on the wire and in `whoami`. */
module Identities {
  import opened Bytes
  import opened Options

  datatype Identity = Ignore | SystemServer | SystemUi | Settings {

    /** The enumerator's value: IGNORE = 0, SYSTEM_SERVER = 1, SYSTEM_UI = 2,
        SETTINGS = 3. */
    function Code(): Int32 {
      match this
      case Ignore => 0
      case SystemServer => 1
      case SystemUi => 2
      case Settings => 3
    }
  }

  const IGNORE_CODE: Int32 := 0
  const SYSTEM_SERVER_CODE: Int32 := 1
  const SYSTEM_UI_CODE: Int32 := 2
  const SETTINGS_CODE: Int32 := 3

  /** The enumerator an integer names, if any: `static_cast<Identity>` of a
      value outside 0..3 yields no named role. */
  function FromCode(c: Int32): (r: Option<Identity>)
    ensures r.Some? <==> 0 <= c <= 3
    ensures r.Some? ==> r.value.Code() == c
  {
    if c == 0 then Some(Ignore)
    else if c == 1 then Some(SystemServer)
    else if c == 2 then Some(SystemUi)
    else if c == 3 then Some(Settings)
    else None
  }
}
