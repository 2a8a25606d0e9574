# Sui zygisk companion handshake, modelled in Dafny

This project models the core of Sui's zygisk module. That core is the
handshake between the module object loaded into every newly specialised
process and the privileged companion process, plus the data the handshake
depends on:

- **Registry** (`ReadApplicationInfo`): two files `<uid>\n<process name>`
  give the uid and process name of the SystemUI manager and of Settings.
- **Companion preparation** (`PrepareCompanion`): the payload `sui.dex` is
  copied into a shared-memory segment. The segment is downgraded to read-only.
  Then the registry is read. All of this runs once, behind the function-static
  latch in `CompanionEntry`.
- **Companion session** (`CompanionEntry`): one int flag is read. A flag of
  exactly 1 means the system server. Any other flag is followed by a uid and a
  256-byte name buffer, which are compared against the registry: SYSTEM_UI
  first, then SETTINGS, else IGNORE. The role int goes back, except to the
  system server. For every role but IGNORE, the segment descriptor and the
  payload size follow.
- **Client** (`ZygiskModule::InitCompanion`, `preAppSpecialize`,
  `postAppSpecialize`, `preServerSpecialize`, `postServerSpecialize`): the
  dual writes and reads, the `DLCLOSE_MODULE_LIBRARY` request for IGNORE, and
  the dispatch to the Settings, manager and system-server entry points.

Modules: `Bytes` (bytes, `int`/`uid_t` conversions, name buffers, C strings,
`strcmp`), `Atoi` (`atoi` and decimal text), `Wire` (the connection as a
stream of octets and passed descriptors, ints in little-endian order),
`Identities` (the `Identity` enum), `Registry`, `Companion`, `Client`,
`Protocol` (client and companion composed).

Everything is a pure function over immutable values. Operating-system
answers are parameters: whether `open`/`lseek` succeed, what
`CreateSharedMem` returns, whether `mmap` succeeds, whether the protection
change takes effect, and the registry files' contents. Descriptors are plain
integers. A connection is a `Wire.Stream`, and a failed `connectCompanion` is
an absent stream.

Behaviours of the code worth knowing:

- Only a flag equal to 1 takes the system-server path. Any other non-zero
  flag is treated as an app claim.
- An unset registry record is not unmatchable: `Protocol.UnsetRecordMatches`
  shows that it matches a claim with uid `(uid_t)-1` and an empty name.
- Names of 256 bytes or more are not truncated. The copies are unbounded, so
  the model requires names shorter than 256 bytes.
- A privileged role is sent the `dex_mem_fd` value with size 0 even when no
  payload was built. The model passes that value on as an opaque token, as
  `Companion.CompanionEntry` and `Protocol.AppHandshake` state. What
  `send_fd`/`recv_fd` make of a negative descriptor is not modelled. There
  are two ways to get there, and they differ:
  - When `open` or `lseek` fails, preparation reports failure. The
    descriptor stays `-1`, and the registry is never read.
  - When `CreateSharedMem` fails, preparation still reports success. The
    descriptor is the negative creation result, and both registry files are
    read.

## Model

| member | source | states |
|---|---|---|
| Bytes.ToUint32 | module/src/main/cpp/core/main_zygisk.cpp:183 | conversion to `uid_t` keeps the value modulo 2^32 and is the identity on 0..2^32-1, so `(uid_t)-1` is 0xFFFFFFFF |
| Bytes.ToInt32 | module/src/main/cpp/core/main_zygisk.cpp:291 | narrowing `size_t` to `int` keeps the value modulo 2^32 and is the identity inside the `int` range |
| Bytes.CStr | module/src/main/cpp/core/main_zygisk.cpp:276-278 | the C string of a buffer is its prefix before the first NUL, NUL-free, and followed by a NUL whenever shorter than the buffer |
| Bytes.StrcmpIsCStrEquality | module/src/main/cpp/core/main_zygisk.cpp:276-278 | `strcmp(a, b) == 0` on equal-width buffers holds if and only if they hold the same C string |
| Bytes.CStrOfNameBuffer | module/src/main/cpp/core/main_zygisk.cpp:45-53 | a NUL-free name copied into a zeroed 256-byte buffer reads back as exactly that name |
| Bytes.NameBuffer | module/src/main/cpp/core/main_zygisk.cpp:199-200 | a name copied into a zeroed 256-byte buffer occupies its start, and the rest, including at least one terminator, is zero |
| Atoi.Atoi | module/src/main/cpp/core/main_zygisk.cpp:203 | text with no digit or sign after the leading white space reads as 0 |
| Atoi.AtoiOfSignedDecimal | module/src/main/cpp/core/main_zygisk.cpp:203 | `atoi` reads back any integer written in decimal, negative ones included |
| Atoi.AtoiSkipsSpace | module/src/main/cpp/core/main_zygisk.cpp:203 | leading white space does not change what `atoi` reads |
| Atoi.AtoiStopsAtNonDigit | module/src/main/cpp/core/main_zygisk.cpp:203 | `atoi` stops at the first non-digit, whatever follows |
| Wire.ReadEncodedInt | module/src/main/cpp/core/main_zygisk.cpp:147-154 | an int written by `write_int` is what the next `read_int` returns, and the rest of the stream is left unread |
| Wire.EncodeReadInt | module/src/main/cpp/core/main_zygisk.cpp:268 | whenever `read_int` succeeds, the stream began with that int's encoding |
| Wire.ReadWrittenBytes | module/src/main/cpp/core/main_zygisk.cpp:153 | the 256 bytes written by `write_full` are the bytes `read_full` returns |
| Wire.ReadSentFd | module/src/main/cpp/core/main_zygisk.cpp:290 | a descriptor passed by `send_fd` is the one `recv_fd` returns |
| Identities.FromCode | module/src/main/cpp/core/main_zygisk.cpp:26-32 | an int names a role exactly when it is 0..3, and that role's code is the int |
| Registry.FirstNewline | module/src/main/cpp/core/main_zygisk.cpp:197-198 | the scan finds a newline exactly when there is one, and the one it finds has no newline before it |
| Registry.ReadApplicationInfo | module/src/main/cpp/core/main_zygisk.cpp:188-207 | uid is `atoi` of the bytes before the first newline, as `uid_t`; the name is all bytes after it, zero-padded to 256; without a newline the record is unchanged; a well-formed record stays well-formed |
| Registry.ReadFormatted | module/src/main/cpp/core/main_zygisk.cpp:188-207 | a file written as decimal uid, newline, name parses back to that uid and name, even when the name contains a newline |
| Registry.ReadExample | module/src/main/cpp/core/main_zygisk.cpp:195-203 | the documented file `10155\n<name>` (name `com.android.systemui`, or any name that fits) gives uid 10155 and that name |
| Companion.PrepareCompanion | module/src/main/cpp/core/main_zygisk.cpp:210-258 | failing open or lseek returns false and changes nothing (the registry is not read); otherwise the result is true, the descriptor is recorded, and the size and payload change only after a successful map; a created segment is downgraded even if the map failed; both records come from their files |
| Companion.PrepareFromInitial | module/src/main/cpp/core/main_zygisk.cpp:231-242 | from the initial state, a non-zero size implies a created and mapped segment, and the segment is read-only exactly when it was created and the downgrade took effect |
| Companion.ReadRequest | module/src/main/cpp/core/main_zygisk.cpp:268-274 | the flag 1 yields the system-server request with nothing more read; any other flag yields an app claim carrying that flag and a 256-byte name |
| Companion.OtherFlagIsAppClaim | module/src/main/cpp/core/main_zygisk.cpp:268-274 | every flag other than 1, including 2, is followed by a uid and a name that are read |
| Companion.ServerFlagIsComplete | module/src/main/cpp/core/main_zygisk.cpp:268-271 | after the flag 1 the companion reads nothing further |
| Companion.Classify | module/src/main/cpp/core/main_zygisk.cpp:276-282 | SYSTEM_UI if and only if the manager record matches (unsigned uid, equal C string); SETTINGS if and only if the manager record does not match and the settings record does; IGNORE if and only if neither matches |
| Companion.Reply | module/src/main/cpp/core/main_zygisk.cpp:284-292 | the reply carries a descriptor if and only if the role is not IGNORE; app claims get the role int first, followed by `dex_mem_fd` and `dex_size` for a role other than IGNORE and by nothing for IGNORE; the system server gets no role int |
| Companion.CompanionEntry | module/src/main/cpp/core/main_zygisk.cpp:260-295 | preparation happens on the first connection only; the role is the classification of the decoded request against the prepared records; an app claim's reply is that role's int, then `dex_mem_fd` and `dex_size` unless the role is IGNORE, in which case nothing follows; SYSTEM_SERVER if and only if the flag is 1; the system server receives only descriptor and size |
| Companion.PreparedStateIsStable | module/src/main/cpp/core/main_zygisk.cpp:262 | once the latch has fired, no further connection changes the companion's state |
| Companion.PrepareRunsOnce | module/src/main/cpp/core/main_zygisk.cpp:262 | after any series of connections, the state is what the first connection's preparation made it |
| Companion.FailedPrepareKeepsSentinels | module/src/main/cpp/core/main_zygisk.cpp:213-226 | if the payload cannot be opened or measured, both records stay unset, the descriptor stays -1 and the size 0 for the companion's whole life |
| Client.SizeFromInt | module/src/main/cpp/core/main_zygisk.cpp:159 | `(size_t)` of an `int` keeps non-negative values and wraps negative ones modulo 2^64 |
| Client.ProcessNameBuffer | module/src/main/cpp/core/main_zygisk.cpp:45-53 | the process-name buffer is 256 bytes, terminated, and holds the nice name's C string, or the empty string without a nice name |
| Client.ClientRequest | module/src/main/cpp/core/main_zygisk.cpp:145-153 | the system server writes only the int 1; an app writes the flag 0, then its uid, then the 256-byte name buffer, 264 octets in all |
| Client.ReadReply | module/src/main/cpp/core/main_zygisk.cpp:154-159 | the system server takes SYSTEM_SERVER without reading; an app takes the role int it reads; a payload is present if and only if the role is not IGNORE, and it is the descriptor that follows the role, with the size read after that widened to `size_t`, and reading stops right after the size |
| Client.InitCompanion | module/src/main/cpp/core/main_zygisk.cpp:138-178 | without a connection nothing changes; the system server's role is SYSTEM_SERVER; an app's role is the int it reads first; a role other than IGNORE ends with the payload read off the connection recorded, and a payload is recorded only for such a role |
| Client.PreAppSpecialize | module/src/main/cpp/core/main_zygisk.cpp:65-70 | the module asks to be unloaded exactly when its role after the handshake is IGNORE |
| Client.PostAppSpecialize | module/src/main/cpp/core/main_zygisk.cpp:80-95 | IGNORE launches nothing; the Settings entry point runs exactly for SETTINGS and the manager's exactly for SYSTEM_UI, each with the module's payload; never the system server's |
| Client.PreServerSpecialize | module/src/main/cpp/core/main_zygisk.cpp:99-103 | a system server that reaches the companion is SYSTEM_SERVER; without a connection nothing changes |
| Client.PostServerSpecialize | module/src/main/cpp/core/main_zygisk.cpp:106-117 | the system-server entry point always runs, with whatever payload the handshake produced |
| Protocol.RequestRoundTrip | module/src/main/cpp/core/main_zygisk.cpp:146-153 | the companion decodes exactly the request the client encodes: the system-server request, or the app claim with flag 0 and the client's uid and name buffer |
| Protocol.ReplyRoundTrip | module/src/main/cpp/core/main_zygisk.cpp:284-292 | the client reads back the role and, unless IGNORE, the descriptor and size, and consumes the reply exactly |
| Protocol.AppHandshake | module/src/main/cpp/core/main_zygisk.cpp:138-178 | a connected app gets the role the companion classified, receives the payload if and only if the role is not IGNORE, asks to be unloaded if and only if it is IGNORE, and launches its role's entry point |
| Protocol.ServerHandshake | module/src/main/cpp/core/main_zygisk.cpp:146-159 | a connected system server is classified SYSTEM_SERVER on both ends, gets no role int, and its entry point receives the companion's descriptor and size |
| Protocol.LaunchOfRole | module/src/main/cpp/core/main_zygisk.cpp:80-95 | a module holding a role's code launches the manager entry point for SYSTEM_UI, the Settings one for SETTINGS, and nothing otherwise |
| Protocol.ConnectFailure | module/src/main/cpp/core/main_zygisk.cpp:139-143 | without a connection a fresh app stays IGNORE, has no payload, asks to be unloaded and launches nothing |
| Protocol.DeliveredSize | module/src/main/cpp/core/main_zygisk.cpp:291 | the client sees the payload's exact size below 2 GiB; a size of 2^31 arrives wrapped |
| Protocol.UnsetRecordMatches | module/src/main/cpp/core/main_zygisk.cpp:183-184 | the unset record matches exactly the claim with uid `(uid_t)-1` and an empty name |
| Protocol.ManagerClaimIsSystemUi | module/src/main/cpp/core/main_zygisk.cpp:276 | a manager process claiming the uid and name of a registry file written for it is classified SYSTEM_UI by the companion prepared from that file |
| Protocol.RegisteredManagerIsRecognised | module/src/main/cpp/core/main_zygisk.cpp:246 | a process claiming the uid and name written in the manager's registry file is classified SYSTEM_UI and receives the payload |

## Left out

- Socket I/O, `send_fd`/`recv_fd`, `mmap`/`munmap`, `close` and the `Dex` object. The connection is a stream of octets and passed descriptors, descriptors are integers, and a `Dex` is its descriptor and size.
- Companion.ReadRequest: a stream that ends early gives `None`. `read_int`, `read_full` and `recv_fd` live in `socket.cpp`, which is not part of this model, so their behaviour on short reads is not modelled. The composition lemmas show that the modelled client and companion never hit this case.
- Client.ReadReply: a reply that ends early gives `None`, for the same reason.
- Atoi.Atoi: returns the mathematical value, because C leaves `atoi` undefined outside the `int` range. Only its conversion to `uid_t` (modulo 2^32) is modelled.
- Registry.ReadApplicationInfo: requires the name after the newline to be shorter than 256 bytes. The source's copy is unbounded and never truncates. A name of exactly 256 bytes fills the buffer and leaves it without a terminator, so the later `strcmp` can read past it. Longer names overflow the buffer.
- Client.ProcessNameBuffer: requires the nice name to be shorter than 256 bytes, because `strcpy` into the 256-byte buffer is unbounded.
- The file reader `Buffer` is not part of this model. A registry file it cannot read is treated as empty contents, which leaves the record unchanged.
- `CreateSharedMem` and `SetSharedMemProt` (`memory.cpp`) are environment outcomes: a descriptor or a negative value, and whether the downgrade took effect.
- Companion.PrepareCompanion: `read_full` is assumed to copy the whole file once the map succeeds. A partial copy is not modelled.
- Concurrency of the static initialiser: the latch is the `prepared` flag, and connections are served one after another.
- Client.SizeFromInt: models only 64-bit `size_t`. On 32-bit ABIs the conversion is the identity modulo 2^32, which is not modelled.
- The data-directory string, `UmountApexAdbd`, `setArgV0`, `__system_property_find`, the JNI string marshalling and the entry points' bodies (`Settings::main`, `Manager::main`, `SystemServer::main`). These are host glue. The entry points appear only as `Client.Launch` targets.
- The daemon bootstrap in `sui_main.hpp` and logging: operating-system I/O only.
