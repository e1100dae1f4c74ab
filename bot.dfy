/** The session-generation conversation of lonamibots.py: the command and
    text handlers, the per-user `context.user_data` they mutate, the Telethon
    client they open and close, and the conversation wiring of `main`. */
module Bot {
  import opened Options
  import opened Strings
  import opened Audit

  /** ADMIN_IDS (lonamibots.py:22). */
  const AdminIds: seq<int> := [12345678, 87654321]

  /** SESSION_DIR (lonamibots.py:23). */
  const SessionDir: string := "business_sessions"

  predicate Authorized(userId: int) {
    userId in AdminIds
  }

  /** What a handler hands back to the conversation handler: PHONE, CODE or
      ConversationHandler.END. */
  datatype Next = Phone | Code | End

  /** What the conversation handler holds for the user between updates: no
      conversation, PHONE or CODE. */
  datatype ConvState = Idle | AwaitingPhone | AwaitingCode

  function After(next: Next): (st: ConvState) {
    match next
    case Phone => AwaitingPhone
    case Code => AwaitingCode
    case End => Idle
  }

  /** The messages sent back to the user, as tags. */
  datatype Reply =
    | NotAuthorized
    | AskPhone
    | InvalidPhone
    | SendingCode(phone: string)
    | CodeSent
    | SendCodeError
    | SessionExpired
    | Document(filename: string, phone: string)
    | SessionFileNotFound
    | LoginFailed
    | OperationCancelled
    | StatsDenied
    | StatsReport(sessions: nat, logged: nat)
    | StatsError

  /** One `sign_in(phone, code, phone_code_hash=...)` call. */
  datatype SignInCall = SignInCall(phone: string, code: string, phoneCodeHash: string)

  /** The Telethon client of one attempt: the session name it was created
      with, whether it is connected, and the calls made on it. The network
      outcomes are parameters. */
  class Client {
    const sessionName: string
    var connected: bool
    var disconnects: nat
    var signIns: seq<SignInCall>

    constructor (sessionName: string)
      ensures this.sessionName == sessionName
      ensures !connected && disconnects == 0 && signIns == []
    {
      this.sessionName := sessionName;
      connected, disconnects, signIns := false, 0, [];
    }

    /** `await client.connect()`; `ok` is whether the network let it connect. */
    method Connect(ok: bool)
      modifies this
      ensures connected == ok
      ensures disconnects == old(disconnects) && signIns == old(signIns)
    {
      connected := ok;
    }

    /** `await client.sign_in(...)`; `ok` is whether Telegram accepted the code. */
    method SignIn(phone: string, code: string, phoneCodeHash: string, ok: bool) returns (accepted: bool)
      modifies this
      ensures accepted == ok
      ensures signIns == old(signIns) + [SignInCall(phone, code, phoneCodeHash)]
      ensures connected == old(connected) && disconnects == old(disconnects)
    {
      signIns := signIns + [SignInCall(phone, code, phoneCodeHash)];
      accepted := ok;
    }

    /** `await client.disconnect()`. */
    method Disconnect()
      modifies this
      ensures !connected && disconnects == old(disconnects) + 1 && signIns == old(signIns)
    {
      connected := false;
      disconnects := disconnects + 1;
    }
  }

  /** Python truthiness of an optional string taken from `user_data.get`. */
  predicate Truthy(s: Option<string>) {
    s.Some? && s.value != ""
  }

  /** The session path the client is created with (lonamibots.py:73). */
  function SessionPath(phone: string): (path: string)
    requires PhoneAccepted(phone)
  {
    SessionDir + "/" + SessionBase(phone)
  }

  /** The replies of `get_phone` for the stripped text `p`. */
  function PhoneReplies(p: string, connectOk: bool, sentHash: Option<string>): (replies: seq<Reply>) {
    if !PhoneAccepted(p) then [InvalidPhone]
    else if connectOk && sentHash.Some? then [SendingCode(p), CodeSent]
    else [SendingCode(p), SendCodeError]
  }

  /** The state `get_phone` returns for the stripped text `p`. */
  function PhoneNext(p: string, connectOk: bool, sentHash: Option<string>): (next: Next) {
    if !PhoneAccepted(p) then Phone
    else if connectOk && sentHash.Some? then Code
    else End
  }

  /** The replies of `get_code` once the stored data is complete. */
  function CodeReplies(phone: string, signInOk: bool, fileExists: bool): (replies: seq<Reply>)
    requires PhoneAccepted(phone)
  {
    if !signInOk then [LoginFailed]
    else if fileExists then [Document(ArtifactName(phone), phone)]
    else [SessionFileNotFound]
  }

  /** The `try` block of `get_code` (lonamibots.py:105-130): sign in with the
      stored phone and hash; on success send the document and append one
      SUCCESS record when the session file is there, otherwise reply with the
      missing file; a rejected sign-in replies with the failure. */
  method TrySignIn(c: Client, log: LogFile, userId: int, phone: string, code: string,
                   phoneCodeHash: string, now: nat, signInOk: bool, fileExists: bool)
    returns (replies: seq<Reply>)
    requires log.Valid() && log.Clean() && PhoneAccepted(phone)
    modifies c, log
    ensures log.Valid() && log.Clean()
    ensures c.connected == old(c.connected) && c.disconnects == old(c.disconnects)
    ensures c.signIns == old(c.signIns) + [SignInCall(phone, code, phoneCodeHash)]
    ensures log.records == old(log.records) + CodeRecords(now, userId, phone, signInOk, fileExists)
    ensures replies == CodeReplies(phone, signInOk, fileExists)
  {
    var ok := c.SignIn(phone, code, phoneCodeHash, signInOk);
    if ok {
      if fileExists {
        replies := [Document(ArtifactName(phone), phone)];
        AcceptedPhoneIsOneLine(phone);
        log.LogRequest(now, userId, phone, Success);
      } else {
        replies := [SessionFileNotFound];
      }
    } else {
      replies := [LoginFailed];
    }
  }

  /** The records `get_code` appends once the stored data is complete. */
  function CodeRecords(time: nat, userId: int, phone: string, signInOk: bool, fileExists: bool): (records: seq<Record>) {
    if signInOk && fileExists then [Record(time, userId, phone, Success)] else []
  }

  /** The records `cancel` appends. */
  function CancelRecords(time: nat, userId: int, phone: Option<string>): (records: seq<Record>) {
    if Truthy(phone) then [Record(time, userId, phone.value, Cancelled)] else []
  }

  /** The updates the bot receives from one user. */
  datatype Update =
    | CreateSessionCommand
    | CancelCommand
    | StatsCommand
    | OtherCommand
    | TextMessage(text: string)

  /** The handler that runs on an update. */
  datatype Handler = StartHandler | PhoneHandler | CodeHandler | CancelHandler | StatsHandler | NoHandler

  /** The wiring of `main` (lonamibots.py:200-211): the entry point is
      checked only outside a conversation, the state's handlers and the
      /cancel fallback only inside one; /stats is a separate handler that the
      conversation handler never claims. */
  function Route(state: ConvState, u: Update): (h: Handler)
    ensures h == StartHandler <==> state == Idle && u == CreateSessionCommand
    ensures h == PhoneHandler <==> state == AwaitingPhone && u.TextMessage?
    ensures h == CodeHandler <==> state == AwaitingCode && u.TextMessage?
    ensures h == CancelHandler <==> state != Idle && u == CancelCommand
    ensures h == StatsHandler <==> u == StatsCommand
  {
    match u
    case CreateSessionCommand => if state == Idle then StartHandler else NoHandler
    case TextMessage(_) =>
      if state == AwaitingPhone then PhoneHandler
      else if state == AwaitingCode then CodeHandler
      else NoHandler
    case CancelCommand => if state == Idle then NoHandler else CancelHandler
    case StatsCommand => StatsHandler
    case OtherCommand => NoHandler
  }

  /** The external outcomes of one update: the clock reading, whether the
      client connects, the hash `send_code_request` returns (None when it
      raises), whether `sign_in` succeeds, whether the session file exists,
      and the session directory's listing (None when it cannot be read). */
  datatype Outcomes = Outcomes(
    now: nat, connectOk: bool, sentHash: Option<string>,
    signInOk: bool, fileExists: bool, listing: Option<seq<string>>)

  /** One user's side of the bot: the conversation state, the four keys of
      `context.user_data`, and the shared log file. */
  class UserConversation {
    const userId: int
    const log: LogFile
    var state: ConvState
    var phone: Option<string>
    var startTime: Option<nat>
    var client: Client?
    var phoneCodeHash: Option<string>

    /** What holds between handlers and inside them: the log is well formed
        and one line per record, and a stored phone passed the phone check. */
    ghost predicate DataValid()
      reads this, log
    {
      log.Valid() && log.Clean() && (phone.Some? ==> PhoneAccepted(phone.value))
    }

    /** What holds between updates: in CODE the data `get_code` needs is
        stored and the client is connected. */
    ghost predicate Valid()
      reads this, log, client
    {
      DataValid()
      && (state == AwaitingCode ==> phone.Some? && client != null && phoneCodeHash.Some? && client.connected)
    }

    /** `context.user_data` is empty. */
    predicate UserDataEmpty()
      reads this
    {
      phone.None? && startTime.None? && client == null && phoneCodeHash.None?
    }

    /** The data `get_code` requires: `all([phone, client, phone_code_hash])`. */
    predicate Ready()
      reads this
    {
      Truthy(phone) && client != null && Truthy(phoneCodeHash)
    }

    constructor (userId: int, log: LogFile)
      requires log.Valid() && log.Clean()
      ensures Valid() && this.userId == userId && this.log == log
      ensures state == Idle && UserDataEmpty()
    {
      this.userId, this.log := userId, log;
      state, phone, startTime, client, phoneCodeHash := Idle, None, None, null, None;
    }

    /** `start` (lonamibots.py:38-53): only the authorisation check and a
        reply; `user_data` is not touched either way. */
    method Start() returns (next: Next, replies: seq<Reply>)
      ensures Authorized(userId) ==> next == Phone && replies == [AskPhone]
      ensures !Authorized(userId) ==> next == End && replies == [NotAuthorized]
    {
      if userId !in AdminIds {
        return End, [NotAuthorized];
      }
      return Phone, [AskPhone];
    }

    /** `get_phone` (lonamibots.py:55-91). A rejected phone changes nothing and
        creates no client. An accepted one is stored with the clock reading
        before the client is created; the client and hash are stored only when
        both network calls succeed. On failure the stored phone and time stay,
        and a client that did connect is left connected. */
    method GetPhone(text: string, now: nat, connectOk: bool, sentHash: Option<string>)
      returns (next: Next, replies: seq<Reply>, ghost created: Client?)
      requires DataValid()
      modifies this
      ensures DataValid() && state == old(state)
      ensures next == PhoneNext(Strip(text), connectOk, sentHash)
      ensures replies == PhoneReplies(Strip(text), connectOk, sentHash)
      ensures !PhoneAccepted(Strip(text)) ==> created == null && unchanged(this)
      ensures PhoneAccepted(Strip(text)) ==>
        phone == Some(Strip(text)) && startTime == Some(now)
        && created != null && fresh(created) && created.sessionName == SessionPath(Strip(text))
        && created.connected == connectOk && created.disconnects == 0 && created.signIns == []
      ensures PhoneAccepted(Strip(text)) && next == Code ==>
        client == created && phoneCodeHash == sentHash
      ensures PhoneAccepted(Strip(text)) && next == End ==>
        client == old(client) && phoneCodeHash == old(phoneCodeHash)
    {
      var p := Strip(text);
      if !(|p| > 0 && p[0] == '+') || !IsDigitString(p[1..]) {
        return Phone, [InvalidPhone], null;
      }
      phone := Some(p);
      startTime := Some(now);
      replies := [SendingCode(p)];
      var c := new Client(SessionPath(p));
      created := c;
      c.Connect(connectOk);
      if !c.connected {
        return End, replies + [SendCodeError], created;
      }
      match sentHash {
        case None =>
          return End, replies + [SendCodeError], created;
        case Some(h) =>
          client := c;
          phoneCodeHash := Some(h);
          return Code, replies + [CodeSent], created;
      }
    }

    /** `get_code` (lonamibots.py:93-140). Without the stored data it only
        replies. Otherwise it signs in with the normalised code, and on every
        outcome disconnects the client once, empties `user_data` and ends;
        a SUCCESS record and the document come only from a successful sign-in
        with the session file present. */
    method GetCode(text: string, now: nat, signInOk: bool, fileExists: bool)
      returns (next: Next, replies: seq<Reply>)
      requires DataValid()
      modifies this, log, client
      ensures DataValid() && state == old(state) && next == End
      ensures !old(Ready()) ==>
        replies == [SessionExpired] && unchanged(this) && unchanged(log)
        && (old(client) != null ==> unchanged(old(client)))
      ensures old(Ready()) ==>
        var c, p := old(client), old(phone).value;
        UserDataEmpty()
        && !c.connected && c.disconnects == old(c.disconnects) + 1
        && c.signIns == old(c.signIns) + [SignInCall(p, NormaliseCode(text), old(phoneCodeHash).value)]
        && log.records == old(log.records) + CodeRecords(now, userId, p, signInOk, fileExists)
        && replies == CodeReplies(p, signInOk, fileExists)
    {
      var code := NormaliseCode(text);
      var p, c, h := phone, client, phoneCodeHash;
      if !(Truthy(p) && c != null && Truthy(h)) {
        return End, [SessionExpired];
      }
      replies := TrySignIn(c, log, userId, p.value, code, h.value, now, signInOk, fileExists);
      c.Disconnect();
      phone, startTime, client, phoneCodeHash := None, None, null, None;
      return End, replies;
    }

    /** `cancel` (lonamibots.py:142-159): disconnect a stored client, log
        CANCELLED when a phone is stored, then empty `user_data` and end. */
    method Cancel(now: nat) returns (next: Next, replies: seq<Reply>)
      requires DataValid()
      modifies this, log, client
      ensures DataValid() && state == old(state)
      ensures next == End && replies == [OperationCancelled] && UserDataEmpty()
      ensures old(client) != null ==>
        !old(client).connected && old(client).disconnects == old(client.disconnects) + 1
        && old(client).signIns == old(client.signIns)
      ensures log.records == old(log.records) + CancelRecords(now, userId, old(phone))
    {
      var p, c := phone, client;
      if c != null {
        c.Disconnect();
      }
      if Truthy(p) {
        AcceptedPhoneIsOneLine(p.value);
        log.LogRequest(now, userId, p.value, Cancelled);
      }
      phone, startTime, client, phoneCodeHash := None, None, null, None;
      return End, [OperationCancelled];
    }

    /** `stats` (lonamibots.py:161-189): refused to non-admins before anything
        is read; otherwise the number of ".session" names in the listing and
        the number of records in the log, or an error reply when the
        directory cannot be listed. */
    method Stats(listing: Option<seq<string>>) returns (reply: Reply)
      requires DataValid()
      ensures !Authorized(userId) ==> reply == StatsDenied
      ensures Authorized(userId) && listing.None? ==> reply == StatsError
      ensures Authorized(userId) && listing.Some? ==>
        reply == StatsReport(CountSessionFiles(listing.value), |log.records|)
    {
      if userId !in AdminIds {
        return StatsDenied;
      }
      match listing {
        case None =>
          return StatsError;
        case Some(names) =>
          var sessions := CountSessionFiles(names);
          var logged := log.CountRecords();
          return StatsReport(sessions, logged);
      }
    }

    /** One update through the wiring of `main`: run the routed handler and
        store the state it returns. */
    method Handle(u: Update, o: Outcomes) returns (replies: seq<Reply>)
      requires Valid()
      modifies this, log, client
      ensures Valid()
      ensures client == null || client == old(client) || fresh(client)
      ensures var h := Route(old(state), u);
        (h == NoHandler || h == StatsHandler ==>
          unchanged(this) && unchanged(log) && (old(client) != null ==> unchanged(old(client))))
        && (h == NoHandler ==> replies == [])
        && (h == StatsHandler ==>
          |replies| == 1
          && (!Authorized(userId) ==> replies[0] == StatsDenied)
          && (Authorized(userId) && o.listing.None? ==> replies[0] == StatsError)
          && (Authorized(userId) && o.listing.Some? ==>
                replies[0] == StatsReport(CountSessionFiles(o.listing.value), |log.records|)))
        && (h == StartHandler ==>
          unchanged(log) && (old(client) != null ==> unchanged(old(client)))
          && phone == old(phone) && startTime == old(startTime)
          && client == old(client) && phoneCodeHash == old(phoneCodeHash)
          && state == (if Authorized(userId) then AwaitingPhone else Idle)
          && replies == [if Authorized(userId) then AskPhone else NotAuthorized])
        && (h == PhoneHandler ==>
          unchanged(log) && (old(client) != null ==> unchanged(old(client)))
          && state == After(PhoneNext(Strip(u.text), o.connectOk, o.sentHash))
          && replies == PhoneReplies(Strip(u.text), o.connectOk, o.sentHash)
          && (!PhoneAccepted(Strip(u.text)) ==> unchanged(this))
          && (PhoneAccepted(Strip(u.text)) ==>
                phone == Some(Strip(u.text)) && startTime == Some(o.now))
          && (state == Idle ==> client == old(client) && phoneCodeHash == old(phoneCodeHash))
          && (state == AwaitingCode ==>
                phoneCodeHash == o.sentHash && fresh(client)
                && client.sessionName == SessionPath(Strip(u.text))
                && client.disconnects == 0 && client.signIns == []))
        && (h == CodeHandler ==>
          state == Idle
          && (old(phoneCodeHash) == Some("") ==>
                replies == [SessionExpired] && unchanged(log)
                && (old(client) != null ==> unchanged(old(client)))
                && phone == old(phone) && startTime == old(startTime)
                && client == old(client) && phoneCodeHash == old(phoneCodeHash))
          && (old(phoneCodeHash) != Some("") ==>
                UserDataEmpty() && !old(client).connected
                && old(client).disconnects == old(client.disconnects) + 1
                && old(client).signIns == old(client.signIns)
                   + [SignInCall(old(phone).value, NormaliseCode(u.text), old(phoneCodeHash).value)]
                && log.records == old(log.records)
                   + CodeRecords(o.now, userId, old(phone).value, o.signInOk, o.fileExists)
                && replies == CodeReplies(old(phone).value, o.signInOk, o.fileExists)))
        && (h == CancelHandler ==>
          state == Idle && UserDataEmpty() && replies == [OperationCancelled]
          && log.records == old(log.records) + CancelRecords(o.now, userId, old(phone))
          && (old(client) != null ==>
                !old(client).connected && old(client).disconnects == old(client.disconnects) + 1
                && old(client).signIns == old(client.signIns)))
    {
      var h := Route(state, u);
      var next: Next;
      match h {
        case NoHandler =>
          return [];
        case StatsHandler =>
          var reply := Stats(o.listing);
          return [reply];
        case StartHandler =>
          next, replies := Start();
        case PhoneHandler =>
          ghost var created;
          next, replies, created := GetPhone(u.text, o.now, o.connectOk, o.sentHash);
        case CodeHandler =>
          next, replies := GetCode(u.text, o.now, o.signInOk, o.fileExists);
        case CancelHandler =>
          next, replies := Cancel(o.now);
      }
      state := After(next);
    }
  }
}
