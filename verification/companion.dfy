/** The companion: the privileged side of the handshake. `PrepareCompanion`
    loads the payload into a shared-memory segment and reads the registry;
    `CompanionEntry` runs it once, then serves one connection: it reads the
    caller's claim, classifies it and, for every role but IGNORE, passes the
    segment's descriptor and the payload size back. */
module Companion {
  import opened Bytes
  import opened Options
  import opened Wire
  import opened Identities
  import opened Registry

  /** Protection of the shared-memory segment that holds the payload. */
  datatype Protection = NoSegment | Writable | ReadOnly

  /** The companion's static state. */
  datatype CompanionState = CompanionState(
    prepared: bool,          // the one-shot `prepare` latch has fired
    dexFd: int,              // dex_mem_fd
    dexSize: nat,            // dex_size
    payload: seq<byte>,      // bytes copied into the segment
    protection: Protection,  // protection of the segment
    manager: Record,         // manager_uid, manager_process
    settings: Record)        // settings_uid, settings_process

  /** Values before the first connection: no descriptor, no payload, both
      registry records unset. */
  const INITIAL: CompanionState :=
    CompanionState(false, -1, 0, [], NoSegment, UNSET, UNSET)

  predicate Valid(st: CompanionState) {
    && WellFormed(st.manager)
    && WellFormed(st.settings)
    && |st.payload| == st.dexSize
  }

  /** What the operating system answers during `PrepareCompanion`; each
      failure is an independent outcome. */
  datatype Environment = Environment(
    dexFile: Option<seq<byte>>,  // contents of the payload file; None: `open` failed
    seekOk: bool,                // `lseek` to the end did not return -1
    segmentFd: int,              // result of `CreateSharedMem`; negative on failure
    mapOk: bool,                 // `mmap` of the segment succeeded
    protOk: bool,                // `SetSharedMemProt(.., PROT_READ)` took effect
    managerFile: seq<byte>,      // registry file of the manager (SystemUI)
    settingsFile: seq<byte>)     // registry file of Settings

  /** Both open and lseek succeeded, so preparation goes on to the registry. */
  predicate ReadsRegistry(env: Environment) {
    env.dexFile.Some? && env.seekOk
  }

  /** The registry files that are read leave room for the name terminator. */
  predicate Admissible(env: Environment) {
    ReadsRegistry(env) ==> NameFits(env.managerFile) && NameFits(env.settingsFile)
  }

  datatype Prepared = Prepared(state: CompanionState, ok: bool)

  /** `PrepareCompanion`. Failing `open` or `lseek` ends it with `false` and
      changes nothing. Otherwise the segment descriptor is recorded whatever it
      is; a created segment receives the payload and its size only if it could
      be mapped, and is downgraded to read-only either way; then both registry
      records are read and the result is `true`. */
  function PrepareCompanion(st: CompanionState, env: Environment): (r: Prepared)
    requires Valid(st)
    requires Admissible(env)
    ensures Valid(r.state)
    ensures r.state.prepared == st.prepared
    ensures r.ok <==> ReadsRegistry(env)
    ensures !r.ok ==> r.state == st
    ensures r.ok ==> r.state.dexFd == env.segmentFd
    ensures r.ok && env.segmentFd >= 0 ==>
              r.state.protection == (if env.protOk then ReadOnly else Writable)
    ensures env.segmentFd < 0 ==> r.state.protection == st.protection
    ensures r.state.dexSize != st.dexSize || r.state.payload != st.payload ==>
              r.ok && env.segmentFd >= 0 && env.mapOk
    ensures r.ok && env.segmentFd >= 0 && env.mapOk ==>
              r.state.payload == env.dexFile.value && r.state.dexSize == |env.dexFile.value|
    ensures r.ok ==> && r.state.manager == ReadApplicationInfo(env.managerFile, st.manager)
                     && r.state.settings == ReadApplicationInfo(env.settingsFile, st.settings)
  {
    if !ReadsRegistry(env) then Prepared(st, false)
    else
      var file := env.dexFile.value;
      var st1 := st.(dexFd := env.segmentFd);
      var st2 :=
        if env.segmentFd < 0 then st1
        else
          var mapped := if env.mapOk then st1.(payload := file, dexSize := |file|) else st1;
          mapped.(protection := if env.protOk then ReadOnly else Writable);
      Prepared(st2.(manager := ReadApplicationInfo(env.managerFile, st.manager),
                    settings := ReadApplicationInfo(env.settingsFile, st.settings)),
               true)
  }

  /** What a connection asks: the system server says only `1`; any other flag
      is followed by the caller's uid and its 256-byte name buffer. */
  datatype Request = ServerHello | AppClaim(flag: Int32, uid: Int32, name: seq<byte>)

  /** The companion's reads: one int, and unless it is exactly 1, an int and
      256 octets. `None` when the stream ends early. */
  function ReadRequest(input: Stream): (r: Option<Request>)
    ensures r.Some? ==> ReadInt(input).Some?
    ensures r.Some? ==> (r.value.ServerHello? <==> ReadInt(input).value.0 == 1)
    ensures r.Some? && r.value.AppClaim? ==>
              r.value.flag == ReadInt(input).value.0 && |r.value.name| == PROCESS_NAME_MAX
    ensures ReadInt(input).Some? && ReadInt(input).value.0 == 1 ==> r == Some(ServerHello)
  {
    match ReadInt(input)
    case None => None
    case Some((flag, rest)) =>
      if flag == 1 then Some(ServerHello)
      else match ReadInt(rest)
        case None => None
        case Some((uid, rest')) =>
          match ReadBytes(rest', PROCESS_NAME_MAX)
          case None => None
          case Some((name, _)) => Some(AppClaim(flag, uid, name))
  }

  /** Only a flag of exactly 1 marks the system server: after any other flag,
      2 included, a uid and a name buffer are read, and nothing after them. */
  lemma OtherFlagIsAppClaim(flag: Int32, uid: Int32, name: seq<byte>, rest: Stream)
    requires flag != 1
    requires |name| == PROCESS_NAME_MAX
    ensures ReadRequest(EncodeInt(flag) + EncodeInt(uid) + Octets(name) + rest)
            == Some(AppClaim(flag, uid, name))
  {
    var input := EncodeInt(flag) + EncodeInt(uid) + Octets(name) + rest;
    assert input == EncodeInt(flag) + (EncodeInt(uid) + (Octets(name) + rest));
    ReadEncodedInt(flag, EncodeInt(uid) + (Octets(name) + rest));
    ReadEncodedInt(uid, Octets(name) + rest);
    ReadWrittenBytes(name, rest);
  }

  /** The flag 1 alone is a complete request: nothing more is read. */
  lemma ServerFlagIsComplete(rest: Stream)
    ensures ReadRequest(EncodeInt(1) + rest) == Some(ServerHello)
  {
    ReadEncodedInt(1, rest);
  }

  /** The claim names the record's process: the uid, converted to `uid_t`,
      equals the record's, and the two buffers hold the same C string. */
  predicate Matches(rec: Record, uid: Int32, name: seq<byte>) {
    ToUint32(uid) == rec.uid && CStr(name) == CStr(rec.name)
  }

  /** Classification: the system server without looking further; otherwise
      SYSTEM_UI if the manager record matches, else SETTINGS if the settings
      record matches, else IGNORE. */
  function Classify(st: CompanionState, req: Request): (role: Identity)
    requires Valid(st)
    requires req.AppClaim? ==> |req.name| == PROCESS_NAME_MAX
    ensures req.ServerHello? <==> role == SystemServer
    ensures req.AppClaim? ==>
              (role == SystemUi <==> Matches(st.manager, req.uid, req.name))
    ensures req.AppClaim? ==>
              (role == Settings <==> !Matches(st.manager, req.uid, req.name)
                                     && Matches(st.settings, req.uid, req.name))
    ensures req.AppClaim? ==>
              (role == Ignore <==> !Matches(st.manager, req.uid, req.name)
                                   && !Matches(st.settings, req.uid, req.name))
  {
    match req
    case ServerHello => SystemServer
    case AppClaim(_, uid, name) =>
      StrcmpIsCStrEquality(name, st.manager.name);
      StrcmpIsCStrEquality(name, st.settings.name);
      if ToUint32(uid) == st.manager.uid && StrcmpEqual(name, st.manager.name) then SystemUi
      else if ToUint32(uid) == st.settings.uid && StrcmpEqual(name, st.settings.name) then Settings
      else Ignore
  }

  /** The payload hand-off: the segment descriptor, then `dex_size` narrowed
      to the `int` that `write_int` takes. */
  function Handoff(st: CompanionState): (out: Stream)
    ensures |out| == 5 && out[0] == Descriptor(st.dexFd) && AllOctets(out[1..])
  {
    [Descriptor(st.dexFd)] + EncodeInt(ToInt32(st.dexSize))
  }

  /** The companion's writes for a classified request. */
  function Reply(st: CompanionState, req: Request, role: Identity): (out: Stream)
    ensures HasDescriptor(out) <==> role != Ignore
    ensures req.ServerHello? ==> out == (if role != Ignore then Handoff(st) else [])
    ensures req.AppClaim? ==> |out| >= 4 && out[..4] == EncodeInt(role.Code())
    ensures req.AppClaim? ==> out[4..] == (if role != Ignore then Handoff(st) else [])
  {
    var head := if req.AppClaim? then EncodeInt(role.Code()) else [];
    var tail := if role != Ignore then Handoff(st) else [];
    assert HasDescriptor(head + tail) <==> HasDescriptor(tail) by {
      assert forall k :: 0 <= k < |head| ==> (head + tail)[k] == head[k];
      assert forall k :: 0 <= k < |tail| ==> (head + tail)[|head| + k] == tail[k];
    }
    assert role != Ignore ==> tail[0].Descriptor?;
    head + tail
  }

  datatype Session = Session(role: Identity, reply: Stream)

  /** The companion's state after a connection, and what it did on it (`None`
      when the caller's request ended early). */
  datatype Entry = Entry(state: CompanionState, session: Option<Session>)

  /** `CompanionEntry`: fire the one-shot preparation, then classify the
      request and reply. The payload descriptor is sent if and only if the
      role is not IGNORE; the system server receives no role int. */
  function CompanionEntry(st: CompanionState, env: Environment, input: Stream): (r: Entry)
    requires Valid(st)
    requires !st.prepared ==> Admissible(env)
    ensures r.state.prepared && Valid(r.state)
    ensures st.prepared ==> r.state == st
    ensures !st.prepared ==> r.state == PrepareCompanion(st, env).state.(prepared := true)
    ensures r.session.Some? <==> ReadRequest(input).Some?
    ensures r.session.Some? ==> r.session.value.role == Classify(r.state, ReadRequest(input).value)
    ensures r.session.Some? && ReadRequest(input).value.AppClaim? ==>
              |r.session.value.reply| >= 4 && r.session.value.reply[..4] == EncodeInt(r.session.value.role.Code())
    ensures r.session.Some? && ReadRequest(input).value.AppClaim? ==>
              r.session.value.reply[4..] == (if r.session.value.role != Ignore then Handoff(r.state) else [])
    ensures r.session.Some? ==>
              (HasDescriptor(r.session.value.reply) <==> r.session.value.role != Ignore)
    ensures r.session.Some? ==>
              (r.session.value.role == SystemServer <==> ReadInt(input).value.0 == 1)
    ensures r.session.Some? && r.session.value.role == SystemServer ==>
              r.session.value.reply == Handoff(r.state)
  {
    var st' := if st.prepared then st else PrepareCompanion(st, env).state.(prepared := true);
    match ReadRequest(input)
    case None => Entry(st', None)
    case Some(req) =>
      var role := Classify(st', req);
      Entry(st', Some(Session(role, Reply(st', req, role))))
  }

  /** One connection: the operating system's answers (consulted only by the
      first) and the bytes the caller sent. */
  datatype Connection = Connection(env: Environment, input: Stream)

  /** The companion's state after serving a series of connections in order.
      Only the connection that fires the latch has its environment consulted,
      so only that one must be admissible. */
  function ServeAll(st: CompanionState, cs: seq<Connection>): (r: CompanionState)
    requires Valid(st)
    requires !st.prepared && |cs| > 0 ==> Admissible(cs[0].env)
    ensures Valid(r)
    ensures |cs| > 0 ==> r.prepared
    decreases |cs|
  {
    if |cs| == 0 then st
    else ServeAll(CompanionEntry(st, cs[0].env, cs[0].input).state, cs[1..])
  }

  /** Once the latch has fired, no connection changes the companion's state. */
  lemma {:induction false} PreparedStateIsStable(st: CompanionState, cs: seq<Connection>)
    requires Valid(st) && st.prepared
    ensures ServeAll(st, cs) == st
    decreases |cs|
  {
    if |cs| > 0 {
      PreparedStateIsStable(st, cs[1..]);
    }
  }

  /** Preparation runs once: after any series of connections starting from
      the initial state, the state is the one the first connection's
      preparation produced, and no later connection's environment matters. */
  lemma PrepareRunsOnce(cs: seq<Connection>)
    requires |cs| > 0
    requires Admissible(cs[0].env)
    ensures ServeAll(INITIAL, cs) == PrepareCompanion(INITIAL, cs[0].env).state.(prepared := true)
  {
    var s1 := CompanionEntry(INITIAL, cs[0].env, cs[0].input).state;
    PreparedStateIsStable(s1, cs[1..]);
  }

  /** If the payload cannot be opened or measured, the registry is never
      read: both records keep their unset values, no descriptor or size is
      recorded, for the companion's whole lifetime. */
  lemma FailedPrepareKeepsSentinels(cs: seq<Connection>)
    requires |cs| > 0
    requires Admissible(cs[0].env)
    requires !ReadsRegistry(cs[0].env)
    ensures var r := ServeAll(INITIAL, cs);
            && r.manager == UNSET && r.settings == UNSET
            && r.dexFd == -1 && r.dexSize == 0 && r.protection == NoSegment
  {
    PrepareRunsOnce(cs);
  }

  /** From the initial state, a non-zero payload size means a segment was
      created and mapped; a created segment is read-only afterwards whenever
      the downgrade takes effect, mapped or not. */
  lemma PrepareFromInitial(env: Environment)
    requires Admissible(env)
    ensures var r := PrepareCompanion(INITIAL, env).state;
            && (r.dexSize != 0 ==> ReadsRegistry(env) && env.segmentFd >= 0 && env.mapOk)
            && (ReadsRegistry(env) && env.segmentFd >= 0 && env.protOk ==> r.protection == ReadOnly)
            && (r.protection == ReadOnly ==> env.segmentFd >= 0 && env.protOk)
  {
  }
}
