/** The zygote-side module object (`ZygiskModule`): in every newly
    specialised process it connects to the companion, states who it is, learns
    its role and, for a privileged role, receives the payload; the role then
    decides which entry point runs after specialisation. */
module Client {
  import opened Bytes
  import opened Options
  import opened Wire
  import opened Identities

  const TWO_64: int := 0x1_0000_0000_0000_0000

  /** The payload handed to this process: descriptor and byte length. */
  datatype Dex = Dex(fd: int, size: nat)

  /** The module object's fields: `whoami`, `dex` (absent while null), and
      whether the host has been asked to unload the module library
      (`DLCLOSE_MODULE_LIBRARY`). */
  datatype Module = Module(whoami: Int32, dex: Option<Dex>, unload: bool)

  /** A freshly loaded module: IGNORE, no payload. */
  const FRESH: Module := Module(IGNORE_CODE, None, false)

  /** `(size_t)` of an `int` on a 64-bit ABI: a negative value wraps around
      modulo 2^64. */
  function SizeFromInt(v: Int32): (n: nat)
    ensures n < TWO_64
    ensures (n - v) % TWO_64 == 0
    ensures v >= 0 ==> n == v
  {
    if v >= 0 then v else v + TWO_64
  }

  /** The `process_name` buffer of `preAppSpecialize`: zero-filled, then the
      nice name's C string copied in, when there is a nice name. */
  function ProcessNameBuffer(niceName: Option<seq<byte>>): (buf: seq<byte>)
    requires niceName.Some? ==> |CStr(niceName.value)| < PROCESS_NAME_MAX
    ensures |buf| == PROCESS_NAME_MAX && NUL in buf
    ensures CStr(buf) == (if niceName.Some? then CStr(niceName.value) else [])
  {
    var s := if niceName.Some? then CStr(niceName.value) else [];
    CStrOfNameBuffer(s);
    NameBuffer(s)
  }

  /** What `InitCompanion` writes: the flag 1 alone for the system server;
      otherwise the flag 0, the uid and the 256-byte name buffer. */
  function ClientRequest(isServer: bool, uid: Int32, name: seq<byte>): (out: Stream)
    requires !isServer ==> |name| == PROCESS_NAME_MAX
    ensures AllOctets(out)
    ensures |out| == if isServer then 4 else 8 + PROCESS_NAME_MAX
    ensures isServer ==> out == EncodeInt(1)
    ensures !isServer ==> out[..4] == EncodeInt(0) && out[4..8] == EncodeInt(uid) && out[8..] == Octets(name)
  {
    if isServer then EncodeInt(1)
    else
      var out := EncodeInt(0) + EncodeInt(uid) + Octets(name);
      assert out[8..] == Octets(name);
      out
  }

  /** What the client learned: its role code and, unless IGNORE, the payload. */
  datatype View = View(whoami: Int32, dex: Option<Dex>)

  /** `InitCompanion`'s reads, with the part of the stream left unread. The
      system server takes SYSTEM_SERVER without reading; any other caller
      reads its role. Unless the role is IGNORE, a descriptor and a size
      follow. `None` when the stream ends early. */
  function ReadReply(isServer: bool, reply: Stream): (r: Option<(View, Stream)>)
    ensures r.Some? && isServer ==> r.value.0.whoami == SYSTEM_SERVER_CODE
    ensures r.Some? && !isServer ==> ReadInt(reply).Some? && r.value.0.whoami == ReadInt(reply).value.0
    ensures r.Some? ==> (r.value.0.dex.Some? <==> r.value.0.whoami != IGNORE_CODE)
    ensures r.Some? ==> |r.value.1| <= |reply|
    ensures r.Some? && r.value.0.dex.Some? ==>
              var k := if isServer then 0 else 4;
              && |reply| >= k + 5
              && reply[k] == Descriptor(r.value.0.dex.value.fd)
              && ReadInt(reply[k + 1..]).Some?
              && r.value.0.dex.value.size == SizeFromInt(ReadInt(reply[k + 1..]).value.0)
              && r.value.1 == reply[k + 5..]
  {
    var head: Option<(Int32, Stream)> := if isServer then Some((SYSTEM_SERVER_CODE, reply)) else ReadInt(reply);
    match head
    case None => None
    case Some((whoami, rest)) =>
      if whoami == IGNORE_CODE then Some((View(whoami, None), rest))
      else match ReadFd(rest)
        case None => None
        case Some((fd, rest')) =>
          match ReadInt(rest')
          case None => None
          case Some((size, rest'')) => Some((View(whoami, Some(Dex(fd, SizeFromInt(size)))), rest''))
  }

  /** The reads of `InitCompanion`; its writes are `ClientRequest`. `link`
      is `None` when `connectCompanion` fails, and otherwise what the
      companion sends back on the connection. A failed
      connection changes nothing: the role stays what it was (IGNORE in a
      fresh module) and no payload is built. The result is `None` when the
      reply ends early. */
  function InitCompanion(m: Module, isServer: bool, link: Option<Stream>): (r: Option<Module>)
    ensures link.None? ==> r == Some(m)
    ensures link.Some? && r.Some? && isServer ==> r.value.whoami == SYSTEM_SERVER_CODE
    ensures link.Some? && r.Some? && !isServer ==>
              ReadInt(link.value).Some? && r.value.whoami == ReadInt(link.value).value.0
    ensures r.Some? && r.value.dex != m.dex ==> r.value.whoami != IGNORE_CODE
    ensures link.Some? && r.Some? && r.value.whoami != IGNORE_CODE ==> r.value.dex.Some?
    ensures link.Some? && r.Some? && r.value.whoami != IGNORE_CODE ==>
              ReadReply(isServer, link.value).Some? && r.value.dex == ReadReply(isServer, link.value).value.0.dex
    ensures r.Some? ==> r.value.unload == m.unload
  {
    match link
    case None => Some(m)
    case Some(reply) =>
      match ReadReply(isServer, reply)
      case None => None
      case Some((view, _)) =>
        Some(m.(whoami := view.whoami, dex := if view.dex.Some? then view.dex else m.dex))
  }

  /** What `preAppSpecialize` writes on the connection: an app request with
      the host-supplied uid and the process-name buffer. */
  function AppRequest(niceName: Option<seq<byte>>, uid: Int32): (out: Stream)
    requires niceName.Some? ==> |CStr(niceName.value)| < PROCESS_NAME_MAX
    ensures |out| == 8 + PROCESS_NAME_MAX
  {
    ClientRequest(false, uid, ProcessNameBuffer(niceName))
  }

  /** `preAppSpecialize`: the handshake's reads, then a request to unload the
      module if the role is IGNORE. */
  function PreAppSpecialize(m: Module, link: Option<Stream>): (r: Option<Module>)
    ensures r.Some? ==> (r.value.unload <==> m.unload || r.value.whoami == IGNORE_CODE)
    ensures link.None? ==> r == Some(m.(unload := m.unload || m.whoami == IGNORE_CODE))
  {
    match InitCompanion(m, false, link)
    case None => None
    case Some(m') => Some(m'.(unload := m'.unload || m'.whoami == IGNORE_CODE))
  }

  /** The entry point run after specialisation, with the payload it gets. */
  datatype Launch =
    | NoLaunch
    | SettingsMain(dex: Option<Dex>)
    | ManagerMain(dex: Option<Dex>)
    | SystemServerMain(dex: Option<Dex>)

  /** `postAppSpecialize`: nothing for IGNORE; the Settings entry point for
      SETTINGS, the manager entry point for SYSTEM_UI, nothing for any other
      code. */
  function PostAppSpecialize(m: Module): (l: Launch)
    ensures m.whoami == IGNORE_CODE ==> l == NoLaunch
    ensures l.SettingsMain? <==> m.whoami == SETTINGS_CODE
    ensures l.ManagerMain? <==> m.whoami == SYSTEM_UI_CODE
    ensures !l.SystemServerMain?
    ensures l != NoLaunch ==> l.dex == m.dex
  {
    match FromCode(m.whoami)
    case Some(Settings) => SettingsMain(m.dex)
    case Some(SystemUi) => ManagerMain(m.dex)
    case _ => NoLaunch
  }

  /** `preServerSpecialize`: the handshake as the system server. */
  function PreServerSpecialize(m: Module, link: Option<Stream>): (r: Option<Module>)
    ensures link.Some? && r.Some? ==> r.value.whoami == SYSTEM_SERVER_CODE
    ensures link.None? ==> r == Some(m)
  {
    InitCompanion(m, true, link)
  }

  /** `postServerSpecialize`: the system server entry point always runs, with
      whatever payload the handshake produced (none if it failed). */
  function PostServerSpecialize(m: Module): (l: Launch)
    ensures l.SystemServerMain? && l.dex == m.dex
  {
    SystemServerMain(m.dex)
  }
}
