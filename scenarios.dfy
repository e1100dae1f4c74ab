/** Conversations driven through the wiring, as a user would drive them,
    with the network outcomes chosen by each scenario. */
module Scenarios {
  import opened Options
  import opened Strings
  import opened Audit
  import opened Bot

  const Admin: int := 12345678
  const Number: string := "+15551234567"

  /** Outcomes under which every network call succeeds. */
  function AllSucceed(now: nat, listing: seq<string>): (o: Outcomes) {
    Outcomes(now, true, Some("a1b2"), true, true, Some(listing))
  }

  /** The number used below is accepted and has no line break. */
  lemma NumberAccepted()
    ensures PhoneAccepted(Number) && NoLineBreak(Number)
  {
  }

  /** It has no surrounding spaces. */
  lemma NumberStrips()
    ensures Strip(Number) == Number
  {
    StripTrimmed(Number);
  }

  /** It names the artifact "business_15551234567.session". */
  lemma NumberArtifact()
    ensures ArtifactName(Number) == "business_15551234567.session"
  {
    NumberAccepted();
  }

  /** Its client is created under "business_sessions/business_15551234567". */
  lemma NumberSessionPath()
    ensures SessionPath(Number) == "business_sessions/business_15551234567"
  {
    NumberAccepted();
  }

  /** Surrounding spaces around the number are stripped off. */
  lemma PaddedNumberStrips()
    ensures Strip(" " + Number + " ") == Number
  {
    var padded := " " + Number + " ";
    assert padded[1..][0] == '+';
    assert LeadingSpaces(padded) == 1;
    var t := padded[1..];
    assert t == Number + " " && t[..|t| - 1] == Number;
    assert TrailingSpaces(t) == 1;
  }

  /** An admin asks for a session and sends a phone padded with spaces: the
      code is requested for the stripped number and the conversation waits
      for it. */
  method CodeRequested() returns (user: UserConversation, replies: seq<Reply>)
    ensures fresh(user) && fresh(user.log) && (user.client == null || fresh(user.client))
    ensures user.Valid() && user.userId == Admin
    ensures user.state == AwaitingCode && user.phone == Some(Number)
    ensures user.phoneCodeHash == Some("a1b2") && user.log.records == []
    ensures user.client != null && user.client.disconnects == 0 && user.client.signIns == []
    ensures user.client.sessionName == "business_sessions/business_15551234567"
    ensures replies == [AskPhone, SendingCode(Number), CodeSent]
  {
    var file := new LogFile();
    user := new UserConversation(Admin, file);
    NumberAccepted();
    PaddedNumberStrips();
    NumberSessionPath();
    var r1 := user.Handle(CreateSessionCommand, AllSucceed(0, []));
    var r2 := user.Handle(TextMessage(" " + Number + " "), AllSucceed(1, []));
    replies := r1 + r2;
  }

  /** After `CodeRequested`, the code typed with spaces signs in once with
      the digits alone, the client is disconnected once, one document named
      after the digits is sent and one SUCCESS record is logged. */
  method Issued() returns (user: UserConversation, replies: seq<Reply>, c: Client)
    ensures fresh(user) && fresh(user.log) && user.client == null
    ensures user.Valid() && user.userId == Admin && user.state == Idle && user.UserDataEmpty()
    ensures user.log.records == [Record(2, Admin, Number, Success)]
    ensures c.signIns == [SignInCall(Number, "12345", "a1b2")] && !c.connected && c.disconnects == 1
    ensures replies == [AskPhone, SendingCode(Number), CodeSent,
                        Document("business_15551234567.session", Number)]
  {
    var r1;
    user, r1 := CodeRequested();
    c := user.client;
    NumberArtifact();
    SpacedCodeNormalised();
    var r2 := user.Handle(TextMessage("1 2 3 4 5"), AllSucceed(2, []));
    replies := r1 + r2;
  }

  /** The whole issuance, as seen from outside: replies, log and the calls on
      the client. */
  method SuccessfulIssuance()
    returns (replies: seq<Reply>, log: seq<Record>, calls: seq<SignInCall>, connected: bool, disconnects: nat)
    ensures replies == [AskPhone, SendingCode(Number), CodeSent,
                        Document("business_15551234567.session", Number)]
    ensures log == [Record(2, Admin, Number, Success)]
    ensures calls == [SignInCall(Number, "12345", "a1b2")] && !connected && disconnects == 1
  {
    var user, r, c := Issued();
    replies, log := r, user.log.records;
    calls, connected, disconnects := c.signIns, c.connected, c.disconnects;
  }

  /** A directory holding one session file and one other file. */
  const Listing: seq<string> := ["business_15551234567.session", "notes.txt"]

  lemma ListingCount()
    ensures CountSessionFiles(Listing) == 1
  {
    assert EndsWith(Listing[0], SessionExtension) && !EndsWith(Listing[1], SessionExtension);
  }

  /** Statistics after the issuance of `SuccessfulIssuance`, in the same
      conversation: the session files of the directory's listing and the one
      line of the log. */
  method StatsAfterIssuance(listing: seq<string>) returns (replies: seq<Reply>)
    ensures replies == [StatsReport(CountSessionFiles(listing), 1)]
    ensures listing == Listing ==> replies == [StatsReport(1, 1)]
  {
    var user, r, c := Issued();
    ListingCount();
    replies := user.Handle(StatsCommand, AllSucceed(3, listing));
  }

  /** A user not in ADMIN_IDS is refused statistics. */
  method StatsDeniedToOthers() returns (replies: seq<Reply>)
    ensures replies == [StatsDenied]
  {
    var file := new LogFile();
    var stranger := new UserConversation(222, file);
    replies := stranger.Handle(StatsCommand, AllSucceed(3, []));
  }

  /** A user not in ADMIN_IDS is refused and nothing is created. */
  method UnauthorizedStart() returns (replies: seq<Reply>, state: ConvState, empty: bool)
    ensures replies == [NotAuthorized] && state == Idle && empty
  {
    var file := new LogFile();
    var user := new UserConversation(222, file);
    replies := user.Handle(CreateSessionCommand, AllSucceed(0, []));
    state, empty := user.state, user.UserDataEmpty();
  }

  /** "+1abc" has no surrounding space and is not a phone number. */
  lemma MalformedRefused()
    ensures Strip("+1abc") == "+1abc" && !PhoneAccepted("+1abc")
  {
    assert "+1abc"[1..][1] == 'a';
    StripTrimmed("+1abc");
  }

  /** A malformed phone is refused and the conversation stays in PHONE. */
  method RejectedPhone() returns (replies: seq<Reply>, state: ConvState, empty: bool)
    ensures replies == [AskPhone, Reply.InvalidPhone] && state == AwaitingPhone && empty
  {
    var file := new LogFile();
    var user := new UserConversation(Admin, file);
    MalformedRefused();
    var r1 := user.Handle(CreateSessionCommand, AllSucceed(0, []));
    var r2 := user.Handle(TextMessage("+1abc"), AllSucceed(1, []));
    replies := r1 + r2;
    state, empty := user.state, user.UserDataEmpty();
  }

  /** The code cannot be requested: the conversation ends, but the phone
      stays in `user_data` and nothing is logged. */
  method FailedSend() returns (user: UserConversation, replies: seq<Reply>)
    ensures fresh(user) && fresh(user.log) && (user.client == null || fresh(user.client))
    ensures user.Valid() && user.userId == Admin
    ensures user.state == Idle && user.phone == Some(Number) && user.log.records == []
    ensures user.client == null && user.phoneCodeHash.None?
    ensures replies == [AskPhone, SendingCode(Number), SendCodeError]
  {
    var file := new LogFile();
    user := new UserConversation(Admin, file);
    NumberAccepted();
    NumberStrips();
    var failing := Outcomes(1, true, None, true, true, Some([]));
    var r1 := user.Handle(CreateSessionCommand, failing);
    var r2 := user.Handle(TextMessage(Number), failing);
    replies := r1 + r2;
  }

  /** After `FailedSend`, a /cancel outside the conversation is not routed;
      a /cancel in the next conversation, before any phone is given, logs
      CANCELLED with the earlier phone. */
  method StalePhoneCancelled() returns (replies: seq<Reply>, log: seq<Record>)
    ensures replies == [AskPhone, SendingCode(Number), SendCodeError, AskPhone, OperationCancelled]
    ensures log == [Record(4, Admin, Number, Cancelled)]
  {
    var user, r1 := FailedSend();
    var r2 := user.Handle(CancelCommand, AllSucceed(2, []));
    var r3 := user.Handle(CreateSessionCommand, AllSucceed(3, []));
    var r4 := user.Handle(CancelCommand, AllSucceed(4, []));
    replies := r1 + r2 + r3 + r4;
    log := user.log.records;
  }
}
