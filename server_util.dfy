/**
 * The access-control decisions of server/util.go: staff rights, board and
 * thread access, identity lookup, compound errors and language selection.
 * The process-wide configuration the Go code reads is passed explicitly as
 * an immutable snapshot.
 */
module ServerUtil {
  import opened Wrappers

  /** A requester: IP, staff class name ("" when not staff) and ban flag. */
  datatype Ident = Ident(ip: string, auth: string, banned: bool)

  /** A staff class: the rights it grants, keyed by action name. */
  datatype StaffClass = StaffClass(rights: map<string, bool>)

  /** The configuration snapshot the decisions read. */
  datatype Config = Config(
    classes: map<string, StaffClass>,  // Staff.Classes
    staffBoard: string,                // Boards.Staff
    boards: set<string>,               // names of the configured boards
    langDefault: string,               // Lang.Default
    langEnabled: seq<string>           // Lang.Enabled
  )

  /** The synthetic aggregate board, which always exists. */
  const AllBoard: string := "all"
  /** The right that opens the staff board. */
  const AccessStaffBoard: string := "accessStaffBoard"
  /** The right that shows deleted threads. */
  const SeeModeration: string := "seeModeration"

  /** Go's `m[k]` on a map[string]bool: the zero value `false` for an absent key. */
  function MapBool(m: map<string, bool>, k: string): bool {
    if k in m then m[k] else false
  }

  // ---------------------------------------------------------------------
  // checkAuth

  /** Whether `ident`'s staff class grants `action`. */
  function CheckAuth(config: Config, action: string, ident: Ident): (r: bool)
    ensures r <==> ident.auth in config.classes
                   && action in config.classes[ident.auth].rights
                   && config.classes[ident.auth].rights[action]
    ensures ident.auth !in config.classes ==> !r
  {
    if ident.auth in config.classes then MapBool(config.classes[ident.auth].rights, action)
    else false
  }

  /** The actions `ident` may perform: the rights set to true in its class. */
  function Granted(config: Config, ident: Ident): set<string> {
    if ident.auth in config.classes then
      var rights := config.classes[ident.auth].rights;
      set a | a in rights && rights[a]
    else {}
  }

  /** checkAuth agrees with the granted set: absence of a class or of an action is denial. */
  lemma CheckAuthIsGranted(config: Config, action: string, ident: Ident)
    ensures CheckAuth(config, action, ident) <==> action in Granted(config, ident)
  {
  }

  // ---------------------------------------------------------------------
  // lookUpIdent

  /** The identity of a request from `ip`; the ban lookup is an empty stub. */
  function LookUpIdent(ip: string): (r: Ident)
    ensures r.ip == ip && r.auth == "" && !r.banned
  {
    Ident(ip, "", false)
  }

  /**
   * A freshly looked-up identity holds no rights unless a staff class named ""
   * is configured, and so reaches exactly the existing boards other than the
   * staff board.
   */
  lemma LookedUpIdentAccess(config: Config, ip: string, board: string)
    requires "" !in config.classes
    ensures Granted(config, LookUpIdent(ip)) == {}
    ensures CanAccessBoard(config, board, LookUpIdent(ip))
            <==> board != config.staffBoard && (board in config.boards || board == AllBoard)
  {
  }

  // ---------------------------------------------------------------------
  // canAccessBoard

  /** Whether `board` exists: it is configured, or it is the synthetic "all" board. */
  predicate BoardExists(config: Config, board: string) {
    board in config.boards || board == AllBoard
  }

  /**
   * Reference definition: the boards an identity may access. Nothing when
   * banned; otherwise every existing board, less the staff board when the
   * identity lacks the right to it.
   */
  function AccessibleBoards(config: Config, ident: Ident): set<string> {
    if ident.banned then {}
    else
      var existing := config.boards + {AllBoard};
      if CheckAuth(config, AccessStaffBoard, ident) then existing
      else existing - {config.staffBoard}
  }

  /** Whether `ident` may access `board`. */
  function CanAccessBoard(config: Config, board: string, ident: Ident): (r: bool)
    ensures r <==> board in AccessibleBoards(config, ident)
    // A banned identity is denied every board, "all" included.
    ensures ident.banned ==> !r
    // Access is only ever granted to an existing board.
    ensures r ==> BoardExists(config, board)
    // The staff board (by plain string equality, "" included) needs the right.
    ensures board == config.staffBoard && !CheckAuth(config, AccessStaffBoard, ident) ==> !r
    // Any other board: exactly the existence check for an unbanned identity.
    ensures !ident.banned && board != config.staffBoard ==> (r <==> BoardExists(config, board))
    // An existing staff board: exactly the right, for an unbanned identity.
    ensures !ident.banned && board == config.staffBoard && BoardExists(config, board)
            ==> (r <==> CheckAuth(config, AccessStaffBoard, ident))
  {
    if board == config.staffBoard && !CheckAuth(config, AccessStaffBoard, ident) then false
    else
      var ok := board in config.boards;
      var ok := if !ok && board == AllBoard then true else ok;
      !ident.banned && ok
  }

  // ---------------------------------------------------------------------
  // canAccessThread

  /**
   * Whether `ident` may access a thread on `board` whose stored `deleted`
   * flag is given (the database read is the caller's).
   */
  function CanAccessThread(config: Config, board: string, ident: Ident, deleted: bool): (r: bool)
    // The board decision dominates.
    ensures r ==> CanAccessBoard(config, board, ident)
    // Past the board gate, a deleted thread needs the moderation right.
    ensures CanAccessBoard(config, board, ident)
            ==> (r <==> !deleted || CheckAuth(config, SeeModeration, ident))
    ensures ident.banned ==> !r
  {
    if !CanAccessBoard(config, board, ident) then false
    else if deleted && !CheckAuth(config, SeeModeration, ident) then false
    else true
  }

  // ---------------------------------------------------------------------
  // wrapError

  /**
   * A Go error value: a plain message (errors.New and the like) or a
   * wrapError with its text and optional inner error.
   */
  datatype Error = Plain(message: string) | Wrapped(text: string, inner: Option<Error>)

  /** The error's Error() string. */
  function Message(e: Error): (r: string)
    // A wrapError's message starts with its own text ...
    ensures e.Wrapped? ==> |e.text| <= |r| && r[..|e.text|] == e.text
    // ... which is the whole message when there is no inner error ...
    ensures e.Wrapped? && e.inner.None? ==> r == e.text
    // ... and is followed by ": " when there is one.
    ensures e.Wrapped? && e.inner.Some?
            ==> |e.text| + 2 <= |r| && r[|e.text|..|e.text| + 2] == ": "
    decreases e
  {
    match e
    case Plain(m) => m
    case Wrapped(text, inner) =>
      match inner
      case None => text
      case Some(i) => text + ": " + Message(i)
  }

  /** The texts along an error's chain of wrapping, outermost first. */
  function Chain(e: Error): (r: seq<string>)
    ensures |r| >= 1
    decreases e
  {
    match e
    case Plain(m) => [m]
    case Wrapped(text, inner) =>
      match inner
      case None => [text]
      case Some(i) => [text] + Chain(i)
  }

  /** `parts` joined with `sep` between consecutive parts. */
  function Join(parts: seq<string>, sep: string): string
    requires |parts| >= 1
  {
    if |parts| == 1 then parts[0] else parts[0] + sep + Join(parts[1..], sep)
  }

  /** A wrapped error reads as its whole chain of texts joined by ": ". */
  lemma {:induction false} MessageIsJoinedChain(e: Error)
    ensures Message(e) == Join(Chain(e), ": ")
    decreases e
  {
    match e
    case Plain(m) =>
    case Wrapped(text, inner) =>
      match inner
      case None =>
      case Some(i) =>
        MessageIsJoinedChain(i);
        assert Chain(e)[1..] == Chain(i);
  }

  /** The wrapError example: "bar" around the error "foo" reads "bar: foo". */
  lemma WrapErrorExample()
    ensures Message(Wrapped("bar", Some(Plain("foo")))) == "bar: foo"
  {
  }

  // ---------------------------------------------------------------------
  // chooseLang

  /** The range loop over the enabled languages: the first one equal to `value`. */
  function FindLang(enabled: seq<string>, value: string): (r: Option<string>)
    ensures r.Some? <==> value in enabled
    ensures r.Some? ==> r.value == value
  {
    if enabled == [] then None
    else if value == enabled[0] then Some(enabled[0])
    else FindLang(enabled[1..], value)
  }

  /**
   * The response language, from the "lang" cookie's value (None when the
   * request has no such cookie).
   */
  function ChooseLang(config: Config, cookie: Option<string>): (r: string)
    ensures cookie.None? ==> r == config.langDefault
    ensures cookie.Some? && cookie.value in config.langEnabled ==> r == cookie.value
    ensures cookie.Some? && cookie.value !in config.langEnabled ==> r == config.langDefault
    ensures r == config.langDefault || r in config.langEnabled
  {
    match cookie
    case None => config.langDefault
    case Some(value) =>
      match FindLang(config.langEnabled, value)
      case Some(lang) => lang
      case None => config.langDefault
  }

  // ---------------------------------------------------------------------
  // The scenarios of server/util_test.go

  /** checkAuth against a single "admin" class granting canFoo and not canBar. */
  lemma CheckAuthScenario(ip: string)
    ensures var config := Config(map["admin" := StaffClass(map["canFoo" := true, "canBar" := false])],
                                 "", {}, "", []);
            && CheckAuth(config, "canFoo", Ident(ip, "admin", false))
            && !CheckAuth(config, "canBar", Ident(ip, "admin", false))
            && !CheckAuth(config, "canBaz", Ident(ip, "admin", false))
            && !CheckAuth(config, "canFoo", Ident(ip, "butler", false))
            && !CheckAuth(config, "canFoo", Ident(ip, "", false))
  {
  }

  /** canAccessBoard with boards "a" and "staff", "staff" the staff board. */
  lemma CanAccessBoardScenario()
    ensures var config := Config(map["admin" := StaffClass(map[AccessStaffBoard := true])],
                                 "staff", {"a", "staff"}, "", []);
            && CanAccessBoard(config, "a", Ident("", "", false))
            && !CanAccessBoard(config, "b", Ident("", "", false))
            && CanAccessBoard(config, "all", Ident("", "", false))
            && !CanAccessBoard(config, "staff", Ident("", "", false))
            && CanAccessBoard(config, "staff", Ident("", "admin", false))
            && !CanAccessBoard(config, "a", Ident("", "", true))
  {
  }

  /** chooseLang with default lv_LV and only en_GB enabled. */
  lemma ChooseLangScenario()
    ensures var config := Config(map[], "", {}, "lv_LV", ["en_GB"]);
            && ChooseLang(config, None) == "lv_LV"
            && ChooseLang(config, Some("pt_BR")) == "lv_LV"
            && ChooseLang(config, Some("en_GB")) == "en_GB"
  {
  }
}
