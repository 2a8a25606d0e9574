/** The handshake end to end: what the module object in a new process writes
    is what the companion reads, what the companion writes is what the module
    object reads, and both ends settle on the same role. */
module Protocol {
  import opened Bytes
  import opened Options
  import opened Wire
  import opened Identities
  import opened Registry
  import opened Companion
  import opened Client

  /** The payload as the client ends up holding it: the companion's
      descriptor, and its size after the `int` narrowing on the wire and the
      `size_t` widening in the client. */
  function DeliveredDex(st: CompanionState): Dex {
    Dex(st.dexFd, SizeFromInt(ToInt32(st.dexSize)))
  }

  /** The companion decodes exactly the request the client encodes. */
  lemma RequestRoundTrip(isServer: bool, uid: Int32, name: seq<byte>)
    requires !isServer ==> |name| == PROCESS_NAME_MAX
    ensures ReadRequest(ClientRequest(isServer, uid, name))
            == Some(if isServer then ServerHello else AppClaim(0, uid, name))
  {
    if isServer {
      ServerFlagIsComplete([]);
      assert EncodeInt(1) + [] == EncodeInt(1);
    } else {
      OtherFlagIsAppClaim(0, uid, name, []);
      assert EncodeInt(0) + EncodeInt(uid) + Octets(name) + [] == ClientRequest(false, uid, name);
    }
  }

  /** The client consumes exactly the reply the companion writes, no more
      and no less, and reads back the role and the payload. */
  lemma ReplyRoundTrip(st: CompanionState, req: Request, role: Identity)
    requires req.ServerHello? ==> role == SystemServer
    ensures ReadReply(req.ServerHello?, Reply(st, req, role))
            == Some((View(role.Code(), if role != Ignore then Some(DeliveredDex(st)) else None), []))
  {
    var size := ToInt32(st.dexSize);
    var handoff := Handoff(st);
    assert handoff == [Descriptor(st.dexFd)] + EncodeInt(size);
    ReadSentFd(st.dexFd, EncodeInt(size));
    ReadEncodedInt(size, []);
    assert EncodeInt(size) + [] == EncodeInt(size);
    if req.AppClaim? {
      var tail := if role != Ignore then handoff else [];
      assert Reply(st, req, role) == EncodeInt(role.Code()) + tail;
      ReadEncodedInt(role.Code(), tail);
    }
  }

  /** An app process with a live connection: the companion serves it, its
      module object reads back the role the companion chose, receives the
      payload exactly when that role is not IGNORE, asks to be unloaded
      exactly when it is IGNORE, and launches the entry point of its role. */
  lemma AppHandshake(st: CompanionState, env: Environment, m: Module,
                     niceName: Option<seq<byte>>, uid: Int32)
    requires Valid(st)
    requires !st.prepared ==> Admissible(env)
    requires niceName.Some? ==> |CStr(niceName.value)| < PROCESS_NAME_MAX
    ensures var e := CompanionEntry(st, env, AppRequest(niceName, uid));
            && e.session.Some?
            && var role := e.session.value.role;
            && role == Classify(e.state, AppClaim(0, uid, ProcessNameBuffer(niceName)))
            && role != SystemServer
            && var m' := PreAppSpecialize(m, Some(e.session.value.reply));
            && m'.Some?
            && m'.value.whoami == role.Code()
            && (m'.value.unload <==> m.unload || role == Ignore)
            && m'.value.dex == (if role != Ignore then Some(DeliveredDex(e.state)) else m.dex)
            && PostAppSpecialize(m'.value)
               == (match role
                   case SystemUi => ManagerMain(Some(DeliveredDex(e.state)))
                   case Settings => SettingsMain(Some(DeliveredDex(e.state)))
                   case _ => NoLaunch)
  {
    var name := ProcessNameBuffer(niceName);
    RequestRoundTrip(false, uid, name);
    var e := CompanionEntry(st, env, AppRequest(niceName, uid));
    var role := e.session.value.role;
    ReplyRoundTrip(e.state, AppClaim(0, uid, name), role);
    var view := View(role.Code(), if role != Ignore then Some(DeliveredDex(e.state)) else None);
    assert ReadReply(false, e.session.value.reply) == Some((view, []));
    var m1 := m.(whoami := role.Code(), dex := if role != Ignore then Some(DeliveredDex(e.state)) else m.dex);
    assert InitCompanion(m, false, Some(e.session.value.reply)) == Some(m1);
    var m' := m1.(unload := m.unload || role == Ignore);
    assert PreAppSpecialize(m, Some(e.session.value.reply)) == Some(m');
    LaunchOfRole(m', role);
  }

  /** The entry point a module object launches after the app handshake is
      the one of the role whose code it holds. */
  lemma LaunchOfRole(m: Module, role: Identity)
    requires m.whoami == role.Code()
    ensures PostAppSpecialize(m)
            == (match role
                case SystemUi => ManagerMain(m.dex)
                case Settings => SettingsMain(m.dex)
                case _ => NoLaunch)
  {
  }

  /** The system server with a live connection: the companion answers
      SYSTEM_SERVER without a role int, and the module object, which assumed
      that role, reads exactly the descriptor and the size, which the system
      server entry point then receives. */
  lemma ServerHandshake(st: CompanionState, env: Environment, m: Module)
    requires Valid(st)
    requires !st.prepared ==> Admissible(env)
    ensures var e := CompanionEntry(st, env, ClientRequest(true, 0, []));
            && e.session == Some(Session(SystemServer, Handoff(e.state)))
            && var m' := PreServerSpecialize(m, Some(e.session.value.reply));
            && m' == Some(m.(whoami := SYSTEM_SERVER_CODE, dex := Some(DeliveredDex(e.state))))
            && PostServerSpecialize(m'.value) == SystemServerMain(Some(DeliveredDex(e.state)))
  {
    RequestRoundTrip(true, 0, []);
    var e := CompanionEntry(st, env, ClientRequest(true, 0, []));
    ReplyRoundTrip(e.state, ServerHello, SystemServer);
  }

  /** Without a connection a fresh app process stays IGNORE, builds no
      payload, asks to be unloaded and launches nothing; a fresh system server
      launches its entry point without a payload. */
  lemma ConnectFailure()
    ensures PreAppSpecialize(FRESH, None) == Some(Module(IGNORE_CODE, None, true))
    ensures PostAppSpecialize(Module(IGNORE_CODE, None, true)) == NoLaunch
    ensures PreServerSpecialize(FRESH, None) == Some(FRESH)
    ensures PostServerSpecialize(FRESH) == SystemServerMain(None)
  {
  }

  /** The size the client sees is the payload's size for any payload below
      2 GiB; a larger one wraps on the way through `int`. */
  lemma DeliveredSize(st: CompanionState)
    ensures st.dexSize < TWO_31 ==> DeliveredDex(st).size == st.dexSize
    ensures st.dexSize == TWO_31 ==> DeliveredDex(st).size == TWO_64 - TWO_31
  {
  }

  /** The unset record matches exactly one claim: uid `(uid_t)-1` with an
      empty name. */
  lemma UnsetRecordMatches(uid: Int32, name: seq<byte>)
    requires |name| == PROCESS_NAME_MAX
    ensures Matches(UNSET, uid, name) <==> uid == -1 && CStr(name) == []
  {
    assert UNSET.name[0] == NUL;
  }

  /** The manager's own claim, checked against the records prepared from a
      registry file written for it, is classified SYSTEM_UI. */
  lemma ManagerClaimIsSystemUi(env: Environment, uid: Int32, name: seq<byte>)
    requires ReadsRegistry(env)
    requires |name| < PROCESS_NAME_MAX && NUL !in name
    requires env.managerFile == Format(uid, name)
    requires NameFits(env.settingsFile)
    ensures Admissible(env)
    ensures Classify(PrepareCompanion(INITIAL, env).state.(prepared := true),
                     AppClaim(0, uid, ProcessNameBuffer(Some(name)))) == SystemUi
  {
    ReadFormatted(uid, name, UNSET);
    CStrOfNameBuffer(name);
    CStrOfNulFree(name);
  }

  /** A registry file written for the manager makes its own process, claimed
      with the registered uid and name, a SYSTEM_UI process that receives the
      payload: parsing the file, sending the claim and comparing it compose. */
  lemma RegisteredManagerIsRecognised(env: Environment, m: Module, uid: Int32, name: seq<byte>)
    requires ReadsRegistry(env)
    requires |name| < PROCESS_NAME_MAX && NUL !in name
    requires env.managerFile == Format(uid, name)
    requires Admissible(env)
    ensures var e := CompanionEntry(INITIAL, env, AppRequest(Some(name), uid));
            && e.session.Some?
            && e.session.value.role == SystemUi
            && PreAppSpecialize(m, Some(e.session.value.reply)).Some?
            && PreAppSpecialize(m, Some(e.session.value.reply)).value.whoami == SYSTEM_UI_CODE
            && PreAppSpecialize(m, Some(e.session.value.reply)).value.dex == Some(DeliveredDex(e.state))
  {
    ManagerClaimIsSystemUi(env, uid, name);
    CStrOfNulFree(name);
    AppHandshake(INITIAL, env, m, Some(name), uid);
  }
}
