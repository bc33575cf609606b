/** Errors across the wire: errors.go, writeError of server/as.go and decodeOAuthError of
    client/token.go. Bodies are records, not JSON text. */
module ErrorTransport {
  import opened Text

  const INVALID_GRANT := "invalid_grant"
  const INVALID_TOKEN := "invalid_token"
  const NEED_INFO := "need_info"
  const REQUEST_SUBMITTED := "request_submitted"
  const NOT_AUTHORIZED := "not_authorized"

  datatype OAuthError = OAuthError(code: string, description: string, uri: string)

  datatype NeedInfoError = NeedInfoError(envelope: OAuthError, ticket: string, requiredClaims: seq<string>, redirectUser: string)

  datatype ValidationError = ValidationError(typ: string, field: string, message: string)

  /** A Go error: typed leaves, untyped ones, and what wraps or joins them. */
  datatype Err =
    | NeedInfo(needInfo: NeedInfoError)
    | Validation(validation: ValidationError)
    | OAuth(oauth: OAuthError)
    | NotImplemented
    | Plain(text: string)
    | Wrap(text: string, inner: Err)
    | Joined(errs: seq<Err>)

  /** What errors.As or errors.Is is asked to look for. */
  datatype Target =
    | AnyNeedInfo              // errors.As, *NeedInfoError
    | AnyValidation            // errors.As, *ValidationError
    | AnyOAuth                 // errors.As, *OAuthError
    | TheNotImplemented        // errors.Is, ErrNotImplemented
    | Code(code: string)       // errors.Is, the sentinel of a code, by (*OAuthError).Is

  predicate Hits(t: Target, e: Err) {
    match t
    case AnyNeedInfo => e.NeedInfo?
    case AnyValidation => e.Validation?
    case AnyOAuth => e.OAuth?
    case TheNotImplemented => e.NotImplemented?
    case Code(code) => (e.NeedInfo? && e.needInfo.envelope.code == code) || (e.OAuth? && e.oauth.code == code)
  }

  /** Their depth-first search: the first node that matches. */
  function Find(e: Err, t: Target): Option<Err>
    decreases e, 1
  {
    if Hits(t, e) then Some(e)
    else
      match e
      case Wrap(_, inner) => Find(inner, t)
      case Joined(errs) => FindIn(errs, t)
      case _ => None
  }

  function FindIn(errs: seq<Err>, t: Target): Option<Err>
    decreases errs, 0
  {
    if errs == [] then None
    else
      var first := Find(errs[0], t);
      if first.Some? then first else FindIn(errs[1..], t)
  }

  predicate IsCode(e: Err, code: string) {
    Find(e, Code(code)).Some?
  }

  predicate IsNotImplemented(e: Err) {
    Find(e, TheNotImplemented).Some?
  }

  // The reference: a tree's leaves, left to right.

  function Leaves(e: Err): seq<Err>
    decreases e, 1
  {
    match e
    case Wrap(_, inner) => Leaves(inner)
    case Joined(errs) => LeavesIn(errs)
    case _ => [e]
  }

  function LeavesIn(errs: seq<Err>): seq<Err>
    decreases errs, 0
  {
    if errs == [] then [] else Leaves(errs[0]) + LeavesIn(errs[1..])
  }

  function FirstOf(leaves: seq<Err>, t: Target): Option<Err> {
    if leaves == [] then None
    else if Hits(t, leaves[0]) then Some(leaves[0])
    else FirstOf(leaves[1..], t)
  }

  lemma {:induction false} FirstOfAppend(a: seq<Err>, b: seq<Err>, t: Target)
    ensures FirstOf(a + b, t) == if FirstOf(a, t).Some? then FirstOf(a, t) else FirstOf(b, t)
  {
    if a == [] {
      assert a + b == b;
    } else {
      FirstOfAppend(a[1..], b, t);
      assert (a + b)[1..] == a[1..] + b;
    }
  }

  /** However errors are wrapped and joined, the search finds the first matching leaf. */
  lemma {:induction false} FindIsFirstLeaf(e: Err, t: Target)
    ensures Find(e, t) == FirstOf(Leaves(e), t)
    decreases e, 1
  {
    match e
    case Wrap(_, inner) => FindIsFirstLeaf(inner, t);
    case Joined(errs) => FindInIsFirstLeaf(errs, t);
    case _ =>
  }

  lemma {:induction false} FindInIsFirstLeaf(errs: seq<Err>, t: Target)
    ensures FindIn(errs, t) == FirstOf(LeavesIn(errs), t)
    decreases errs, 0
  {
    if errs != [] {
      FindIsFirstLeaf(errs[0], t);
      FindInIsFirstLeaf(errs[1..], t);
      FirstOfAppend(Leaves(errs[0]), LeavesIn(errs[1..]), t);
    }
  }

  lemma {:induction false} FirstOfHits(leaves: seq<Err>, t: Target)
    ensures var f := FirstOf(leaves, t);
            if f.Some? then Hits(t, f.value) && f.value in leaves else forall l :: l in leaves ==> !Hits(t, l)
  {
    if leaves != [] && !Hits(t, leaves[0]) {
      FirstOfHits(leaves[1..], t);
    }
  }

  /** FirstOf is the leftmost match. */
  lemma {:induction false} FirstOfIs(leaves: seq<Err>, t: Target, i: nat)
    requires i < |leaves| && Hits(t, leaves[i]) && forall j :: 0 <= j < i ==> !Hits(t, leaves[j])
    ensures FirstOf(leaves, t) == Some(leaves[i])
  {
    if i > 0 {
      assert forall j :: 0 <= j < i - 1 ==> leaves[1..][j] == leaves[j + 1];
      FirstOfIs(leaves[1..], t, i - 1);
    }
  }

  /** The searches of writeError, each by its leftmost leaf. */
  lemma FirstLeaves(e: Err)
    ensures forall t, i :: 0 <= i < |Leaves(e)| && Hits(t, Leaves(e)[i]) && (forall j :: 0 <= j < i ==> !Hits(t, Leaves(e)[j])) ==>
              Find(e, t) == Some(Leaves(e)[i])
    ensures forall t :: Find(e, t).None? <==> forall l :: l in Leaves(e) ==> !Hits(t, l)
    ensures Find(e, TheNotImplemented).Some? <==> NotImplemented in Leaves(e)
  {
    forall t, i | 0 <= i < |Leaves(e)| && Hits(t, Leaves(e)[i]) && (forall j :: 0 <= j < i ==> !Hits(t, Leaves(e)[j]))
      ensures Find(e, t) == Some(Leaves(e)[i])
    {
      FindIsFirstLeaf(e, t);
      FirstOfIs(Leaves(e), t, i);
    }
    forall t ensures Find(e, t).None? <==> forall l :: l in Leaves(e) ==> !Hits(t, l) {
      FindIsFirstLeaf(e, t);
      FirstOfHits(Leaves(e), t);
    }
  }

  lemma {:induction false} LeavesInAppend(xs: seq<Err>, ys: seq<Err>)
    ensures LeavesIn(xs + ys) == LeavesIn(xs) + LeavesIn(ys)
  {
    if xs == [] {
      assert xs + ys == ys;
    } else {
      LeavesInAppend(xs[1..], ys);
      assert (xs + ys)[1..] == xs[1..] + ys && (xs + ys)[0] == xs[0];
      Regroup(Leaves(xs[0]), LeavesIn(xs[1..]), LeavesIn(ys));
    }
  }

  lemma Regroup(a: seq<Err>, b: seq<Err>, c: seq<Err>)
    ensures a + (b + c) == a + b + c
  {
  }

  /** Wrapping an error changes nothing in its search, and joining lists joins the leaves. */
  lemma LeavesOfJoined(text: string, e: Err, xs: seq<Err>, ys: seq<Err>)
    ensures Leaves(Wrap(text, e)) == Leaves(e) && Leaves(Joined([e])) == Leaves(e)
    ensures Leaves(Joined(xs + ys)) == Leaves(Joined(xs)) + Leaves(Joined(ys))
  {
    assert LeavesIn([e]) == Leaves(e) + LeavesIn([]);
    LeavesInAppend(xs, ys);
  }

  // Server side.

  datatype Body =
    | NoBody
    | Envelope(error: OAuthError)
    | NeedInfoBody(needInfo: NeedInfoError)

  datatype Response = Response(status: nat, body: Body)

  function StatusForCode(code: string): nat {
    if code == INVALID_TOKEN then 401
    else if code == NEED_INFO || code == NOT_AUTHORIZED || code == REQUEST_SUBMITTED then 403
    else 400
  }

  function ValidationText(ve: ValidationError): string {
    "uma: " + ve.typ + "." + ve.field + ": " + if ve.message != "" then ve.message else "invalid"
  }

  function ErrorResponse(e: Err): Response {
    var ne := Find(e, AnyNeedInfo);
    var ve := Find(e, AnyValidation);
    var oe := Find(e, AnyOAuth);
    match ne
    case Some(NeedInfo(ni)) => Response(403, NeedInfoBody(ni))
    case _ =>
      match ve
      case Some(Validation(v)) => Response(400, Envelope(OAuthError(INVALID_GRANT, ValidationText(v), "")))
      case _ =>
        match oe
        case Some(OAuth(o)) => Response(StatusForCode(o.code), Envelope(o))
        case _ => Response(if IsNotImplemented(e) then 501 else 500, NoBody)
  }

  class ResponseWriter {
    var status: nat
    var body: Body

    constructor ()
      ensures status == 0 && body == NoBody
    {
      status, body := 0, NoBody;
    }

    method WriteJSON(status: nat, body: Body)
      modifies this
      ensures this.status == status && this.body == body
    {
      this.status := status;
      this.body := body;
    }

    method WriteError(e: Err)
      modifies this
      ensures Response(status, body) == ErrorResponse(e)
    {
      var ne := Find(e, AnyNeedInfo);
      if ne.Some? && ne.value.NeedInfo? {
        WriteJSON(403, NeedInfoBody(ne.value.needInfo));
        return;
      }
      var ve := Find(e, AnyValidation);
      if ve.Some? && ve.value.Validation? {
        WriteJSON(400, Envelope(OAuthError(INVALID_GRANT, ValidationText(ve.value.validation), "")));
        return;
      }
      var oe := Find(e, AnyOAuth);
      if oe.Some? && oe.value.OAuth? {
        WriteJSON(StatusForCode(oe.value.oauth.code), Envelope(oe.value.oauth));
        return;
      }
      if IsNotImplemented(e) {
        WriteJSON(501, NoBody);
        return;
      }
      WriteJSON(500, NoBody);
    }
  }

  /** What is written, by the leftmost leaf of the first kind there is. */
  lemma WrittenExactly(e: Err, i: nat)
    requires i < |Leaves(e)|
    ensures (Leaves(e)[i].NeedInfo? && forall j :: 0 <= j < i ==> !Leaves(e)[j].NeedInfo?) ==>
              ErrorResponse(e) == Response(403, NeedInfoBody(Leaves(e)[i].needInfo))
    ensures (Leaves(e)[i].Validation? && (forall l :: l in Leaves(e) ==> !l.NeedInfo?)
             && forall j :: 0 <= j < i ==> !Leaves(e)[j].Validation?) ==>
              ErrorResponse(e) == Response(400, Envelope(OAuthError("invalid_grant", ValidationText(Leaves(e)[i].validation), "")))
    ensures (Leaves(e)[i].OAuth? && (forall l :: l in Leaves(e) ==> !l.NeedInfo? && !l.Validation?)
             && forall j :: 0 <= j < i ==> !Leaves(e)[j].OAuth?) ==>
              var o := Leaves(e)[i].oauth;
              ErrorResponse(e) == Response(if o.code == "invalid_token" then 401
                                           else if o.code in {"need_info", "not_authorized", "request_submitted"} then 403
                                           else 400, Envelope(o))
  {
    FirstLeaves(e);
  }

  /** Without a typed leaf nothing but a status is written. */
  lemma WrittenUntyped(e: Err)
    requires forall l :: l in Leaves(e) ==> !l.NeedInfo? && !l.Validation? && !l.OAuth?
    ensures ErrorResponse(e) == Response(if NotImplemented in Leaves(e) then 501 else 500, NoBody)
    ensures Transport(e).Plain?
  {
    FirstLeaves(e);
  }

  // Client side.

  const OPAQUE := "uma client: HTTP error"

  function EnvelopeOf(b: Body): Option<OAuthError> {
    match b
    case NoBody => None
    case Envelope(o) => Some(o)
    case NeedInfoBody(ni) => Some(ni.envelope)
  }

  /** Decoding a body as a NeedInfoError: fields the body lacks stay empty. */
  function AsNeedInfo(b: Body): NeedInfoError
    requires !b.NoBody?
  {
    match b
    case Envelope(o) => NeedInfoError(o, "", [], "")
    case NeedInfoBody(ni) => ni
  }

  function DecodeOAuthError(r: Response): Err {
    match EnvelopeOf(r.body)
    case None => Plain(OPAQUE)
    case Some(envelope) =>
      if envelope.code == "" then Plain(OPAQUE)
      else if envelope.code == NEED_INFO then NeedInfo(AsNeedInfo(r.body))
      else OAuth(envelope)
  }

  /** The error a client method returns when the AS method returned e. */
  function Transport(e: Err): Err {
    DecodeOAuthError(ErrorResponse(e))
  }

  // What survives the trip.

  predicate Typed(e: Err) {
    e.NeedInfo? || e.Validation? || e.OAuth?
  }

  /** The leaf whose envelope is sent: the first need_info error, or else the first
      validation error, or else the first OAuth error, wherever each stands in the tree. */
  function Chosen(e: Err): (leaf: Option<Err>)
    ensures if leaf.Some? then leaf.value in Leaves(e) && Typed(leaf.value) else forall l :: l in Leaves(e) ==> !Typed(l)
  {
    FirstOfHits(Leaves(e), AnyNeedInfo);
    FirstOfHits(Leaves(e), AnyValidation);
    FirstOfHits(Leaves(e), AnyOAuth);
    var ne := FirstOf(Leaves(e), AnyNeedInfo);
    var ve := FirstOf(Leaves(e), AnyValidation);
    if ne.Some? then ne else if ve.Some? then ve else FirstOf(Leaves(e), AnyOAuth)
  }

  /** The envelope a leaf puts on the wire. */
  function Sent(leaf: Err): OAuthError
    requires Typed(leaf)
  {
    match leaf
    case NeedInfo(ni) => ni.envelope
    case Validation(v) => OAuthError(INVALID_GRANT, ValidationText(v), "")
    case OAuth(o) => o
  }

  lemma ResponseOfChosen(e: Err)
    ensures ErrorResponse(e) ==
            match Chosen(e)
            case None => Response(if IsNotImplemented(e) then 501 else 500, NoBody)
            case Some(leaf) =>
              if leaf.NeedInfo? then Response(403, NeedInfoBody(leaf.needInfo))
              else Response(StatusForCode(Sent(leaf).code), Envelope(Sent(leaf)))
  {
    FindIsFirstLeaf(e, AnyNeedInfo);
    FindIsFirstLeaf(e, AnyValidation);
    FindIsFirstLeaf(e, AnyOAuth);
    FirstOfHits(Leaves(e), AnyNeedInfo);
    FirstOfHits(Leaves(e), AnyValidation);
    FirstOfHits(Leaves(e), AnyOAuth);
  }

  /** What the client gets, for every error tree. */
  lemma Transported(e: Err)
    ensures match Chosen(e)
            case None => Transport(e).Plain?
            case Some(leaf) =>
              if Sent(leaf).code == "" then Transport(e).Plain?
              else if Sent(leaf).code != NEED_INFO then Transport(e) == OAuth(Sent(leaf))
              else Transport(e) == NeedInfo(if leaf.NeedInfo? then leaf.needInfo else NeedInfoError(Sent(leaf), "", [], ""))
    ensures ErrorResponse(e).status in {400, 401, 403, 500, 501}
  {
    ResponseOfChosen(e);
  }

  /** The same by leaves: what the client gets of the leftmost leaf of the first kind there is. */
  lemma Arrives(e: Err, i: nat)
    requires i < |Leaves(e)|
    ensures (Leaves(e)[i].NeedInfo? && forall j :: 0 <= j < i ==> !Leaves(e)[j].NeedInfo?) ==>
              var ni := Leaves(e)[i].needInfo;
              if ni.envelope.code == "" then Transport(e).Plain?
              else Transport(e) == if ni.envelope.code == "need_info" then NeedInfo(ni) else OAuth(ni.envelope)
    ensures (Leaves(e)[i].Validation? && (forall l :: l in Leaves(e) ==> !l.NeedInfo?)
             && forall j :: 0 <= j < i ==> !Leaves(e)[j].Validation?) ==>
              Transport(e) == OAuth(OAuthError("invalid_grant", ValidationText(Leaves(e)[i].validation), ""))
    ensures (Leaves(e)[i].OAuth? && (forall l :: l in Leaves(e) ==> !l.NeedInfo? && !l.Validation?)
             && forall j :: 0 <= j < i ==> !Leaves(e)[j].OAuth?) ==>
              var o := Leaves(e)[i].oauth;
              if o.code == "" then Transport(e).Plain?
              else Transport(e) == if o.code == "need_info" then NeedInfo(NeedInfoError(o, "", [], "")) else OAuth(o)
  {
    FirstLeaves(e);
  }

  /** What a validation error reads like on the wire. */
  lemma ValidationReads(typ: string, field: string, message: string)
    ensures ValidationText(ValidationError(typ, field, message)) ==
            "uma: " + typ + "." + field + ": " + (if message == "" then "invalid" else message)
  {
  }

  predicate Sends(e: Err, code: string) {
    Chosen(e).Some? && Sent(Chosen(e).value).code == code
  }

  /** errors.Is on the client agrees with the code that was sent. */
  lemma SentinelSeen(e: Err, code: string)
    requires code != ""
    ensures IsCode(Transport(e), code) <==> Sends(e, code)
  {
    Transported(e);
  }

  lemma IsCodeLeaves(e: Err, code: string)
    ensures IsCode(e, code) <==> exists l :: l in Leaves(e) && Hits(Code(code), l)
    ensures IsCode(e, code) <==> exists l :: l in Leaves(e) && ((l.NeedInfo? && l.needInfo.envelope.code == code)
                                                                || (l.OAuth? && l.oauth.code == code))
  {
    FindIsFirstLeaf(e, Code(code));
    FirstOfHits(Leaves(e), Code(code));
  }

  /** The client never sees a code the AS error did not carry, save invalid_grant standing
      for a validation error. */
  lemma NothingInvented(e: Err, code: string)
    requires code != "" && IsCode(Transport(e), code)
    ensures IsCode(e, code) || (code == INVALID_GRANT && exists l :: l in Leaves(e) && l.Validation?)
  {
    SentinelSeen(e, code);
    IsCodeLeaves(e, code);
    assert Chosen(e).value in Leaves(e);
  }

  /** A leaf that errors.Is finds by a code. */
  predicate Coded(l: Err) {
    (l.NeedInfo? || l.OAuth?) && Sent(l).code != ""
  }

  /** All coded leaves agree on a code, and the leaf that speaks for the tree carries it: the
      first need-info leaf, or any validation leaf, or the first OAuth leaf. */
  ghost predicate OneVoice(leaves: seq<Err>) {
    && (forall l, l' :: l in leaves && l' in leaves && Coded(l) && Coded(l') ==> Sent(l).code == Sent(l').code)
    && forall l :: l in leaves && Coded(l) ==>
         if FirstOf(leaves, AnyNeedInfo).Some? then Coded(FirstOf(leaves, AnyNeedInfo).value)
         else if exists v :: v in leaves && v.Validation? then Sent(l).code == INVALID_GRANT
         else FirstOf(leaves, AnyOAuth).Some? && Coded(FirstOf(leaves, AnyOAuth).value)
  }

  /** The tree says with one voice exactly when each coded leaf's code is the one sent. */
  lemma OneVoiceIsSent(e: Err)
    ensures OneVoice(Leaves(e)) <==> forall l :: l in Leaves(e) && Coded(l) ==> Sends(e, Sent(l).code)
  {
    var leaves := Leaves(e);
    FirstOfHits(leaves, AnyNeedInfo);
    FirstOfHits(leaves, AnyValidation);
    FirstOfHits(leaves, AnyOAuth);
  }

  /** The client sees every code the AS error carries exactly when the tree has one voice. */
  lemma NothingLost(e: Err)
    ensures (forall code :: code != "" && IsCode(e, code) ==> IsCode(Transport(e), code)) <==> OneVoice(Leaves(e))
  {
    OneVoiceIsSent(e);
    if forall code :: code != "" && IsCode(e, code) ==> IsCode(Transport(e), code) {
      forall l | l in Leaves(e) && Coded(l) ensures Sends(e, Sent(l).code) {
        assert Hits(Code(Sent(l).code), l);
        IsCodeLeaves(e, Sent(l).code);
        SentinelSeen(e, Sent(l).code);
      }
    }
    if OneVoice(Leaves(e)) {
      forall code | code != "" && IsCode(e, code) ensures IsCode(Transport(e), code) {
        IsCodeLeaves(e, code);
        var l :| l in Leaves(e) && Hits(Code(code), l);
        assert Coded(l) && Sent(l).code == code;
        SentinelSeen(e, code);
      }
    }
  }

  lemma FindPair(a: Err, b: Err, t: Target)
    ensures Find(Joined([a, b]), t) == if Find(a, t).Some? then Find(a, t) else Find(b, t)
  {
    assert [a, b][1..] == [b];
    assert FindIn([b], t) == Find(b, t);
  }

  /** A validation error joined to a policy denial hides the denial from the client. */
  lemma DenialLost(v: ValidationError, o: OAuthError)
    requires o.code == NOT_AUTHORIZED
    ensures var e := Joined([Validation(v), OAuth(o)]);
            IsCode(e, NOT_AUTHORIZED) && !IsCode(Transport(e), NOT_AUTHORIZED) && IsCode(Transport(e), INVALID_GRANT)
  {
    FindPair(Validation(v), OAuth(o), AnyNeedInfo);
    FindPair(Validation(v), OAuth(o), AnyValidation);
    FindPair(Validation(v), OAuth(o), Code(NOT_AUTHORIZED));
  }
}
