/**
  The daily check-in exchange of WorkBuddy, against a server whose answers are
  arbitrary except that a success signal is never a lie.
*/
module Checkin {
  import opened Prelude

  datatype Variant = CN | Global

  /** Tokens are opaque; zero stands for the empty text, and the server hands out numbers it has not used. */
  type Token = nat
  const NO_TOKEN: Token := 0

  datatype Credential = Credential(access: Token, refresh: Token, variant: Variant)

  /** A decoded answer; the code is -1 when there is none. */
  datatype Response = Response(status: int, code: int, repeated: bool, success: Option<bool>, ok: Option<bool>, hasData: bool, checked: Option<bool>)

  /** The answer to a token refresh; an absent code is zero. */
  datatype TokenReply = TokenReply(status: int, code: int, access: Token, refresh: Token)

  datatype CheckinError = NoActivity | Unauthorized | Transport | Refused | Unconfirmed | RefreshFailed

  predicate Good(status: int) {
    200 <= status < 300
  }

  predicate SuccessCode(code: int) {
    code == 0 || code == 200
  }

  predicate IsUnauthorized(r: Response) {
    r.status == 401 || r.status == 403 || r.code == 401 || r.code == 403
  }

  predicate IsSuccess(r: Response) {
    SuccessCode(r.code) || (r.code == -1 && r.hasData && r.ok != Some(false) && r.success != Some(false))
  }

  /** An explicit signal that the check-in was applied; data alone is none. */
  predicate ExplicitSuccess(r: Response) {
    if r.code != -1 then SuccessCode(r.code) else r.success == Some(true) || r.ok == Some(true) || r.checked == Some(true)
  }

  /** An answer that is read as carrying a new pair. */
  predicate Carries(r: TokenReply) {
    Good(r.status) && SuccessCode(r.code) && r.access != NO_TOKEN
  }

  /** What a status answer that is read as "checked in today" says. */
  predicate SaysChecked(r: Response) {
    !IsUnauthorized(r) && Good(r.status) && IsSuccess(r) && r.checked == Some(true)
  }

  /** What a submission answer that is read as success says. */
  predicate SaysApplied(r: Response) {
    !IsUnauthorized(r) && (r.repeated || (Good(r.status) && ExplicitSuccess(r)))
  }

  /** The tokens of a credential after a refresh; a reply without a refresh token keeps the old one. */
  function Renewed(c: Credential, r: TokenReply): Credential {
    c.(access := r.access, refresh := if r.refresh != NO_TOKEN then r.refresh else c.refresh)
  }

  /** The provider, and what it has received and handed out. */
  class Server {
    /** A cooperative server answers every request, by its own state and in recognised forms, and its answers arrive. */
    const cooperative: bool
    var checkedIn: bool
    var accepted: Token
    var renewable: Token
    /** The largest token in circulation. */
    var last: Token
    /** The newest pair that was issued, and whether it arrived in an answer that carries it. */
    ghost var newest: Credential
    ghost var delivered: bool
    ghost var submissions: nat
    ghost var issues: nat
    ghost var refreshes: nat

    constructor (cooperative: bool, checkedIn: bool, newest: Credential)
      ensures this.cooperative == cooperative && this.checkedIn == checkedIn && this.newest == newest && delivered
      ensures accepted == newest.access && renewable == newest.refresh && newest.access <= last
    {
      this.cooperative, this.checkedIn, accepted, renewable := cooperative, checkedIn, newest.access, newest.refresh;
      last := if newest.access < newest.refresh then newest.refresh else newest.access;
      this.newest, delivered, submissions, issues, refreshes := newest, true, 0, 0, 0;
    }

    /** No pair was issued. */
    twostate predicate NothingIssued()
      reads this
    {
      && issues == old(issues) && refreshes == old(refreshes) && newest == old(newest) && delivered == old(delivered)
      && accepted == old(accepted) && renewable == old(renewable) && last == old(last)
    }

    /** A pair was issued that nobody had before; it was lost on the way. */
    twostate predicate LostPair()
      reads this
    {
      && issues == old(issues) + 1 && refreshes == old(refreshes) && !delivered
      && old(last) < newest.access <= last && !cooperative
    }

    /** Nothing was submitted or issued; the user may have checked in elsewhere. */
    twostate predicate OnlyAsked()
      reads this
    {
      submissions == old(submissions) && NothingIssued() && (old(checkedIn) ==> checkedIn)
    }

    method Status(c: Credential) returns (r: Result<Response, ()>)
      modifies this
      ensures OnlyAsked()
      ensures r.Ok? && SaysChecked(r.value) ==> checkedIn
      ensures cooperative && c.access == accepted ==>
                r.Ok? && !IsUnauthorized(r.value) && Good(r.value.status) && IsSuccess(r.value) && r.value.checked == Some(checkedIn)
      ensures cooperative && c.access != accepted ==> r.Ok? && IsUnauthorized(r.value)
    {
      var elsewhere: bool := *;
      checkedIn := checkedIn || elsewhere;
      if cooperative {
        if c.access == accepted { return Ok(Response(200, 0, false, None, None, true, Some(checkedIn))); }
        return Ok(Response(401, -1, false, None, None, false, None));
      }
      var answer: Result<Response, ()> := *;
      if answer.Ok? && SaysChecked(answer.value) && !checkedIn { return Err(()); }
      return answer;
    }

    /** The balance requests, taken together. */
    method Credits(c: Credential) returns (r: Result<(), CheckinError>)
      modifies this
      ensures OnlyAsked()
      ensures cooperative ==> r == if c.access == accepted then Ok(()) else Err(Unauthorized)
    {
      r := *;
      if cooperative { r := if c.access == accepted then Ok(()) else Err(Unauthorized); }
    }

    method Submit(c: Credential) returns (r: Result<Response, ()>)
      modifies this
      ensures submissions == old(submissions) + 1 && NothingIssued() && (old(checkedIn) ==> checkedIn)
      ensures r.Ok? && SaysApplied(r.value) ==> checkedIn
      ensures cooperative && c.access == accepted ==>
                checkedIn && r.Ok? && !IsUnauthorized(r.value) && Good(r.value.status) && r.value.repeated == old(checkedIn)
      ensures cooperative && c.access != accepted ==> r.Ok? && IsUnauthorized(r.value)
    {
      submissions := submissions + 1;
      var applied: bool, explicit: bool := *, *;
      if cooperative {
        if c.access != accepted { return Ok(Response(403, -1, false, None, None, false, None)); }
        var repeated := checkedIn;
        checkedIn := true;
        return Ok(Response(200, if explicit then 0 else -1, repeated, None, None, true, None));
      }
      checkedIn := checkedIn || applied;
      var answer: Result<Response, ()> := *;
      if answer.Ok? && SaysApplied(answer.value) && !checkedIn { return Err(()); }
      return answer;
    }

    /**
      The server may issue a new pair, and its answer may be lost or spoiled on
      the way; but no answer claims a pair that was not issued.
    */
    method RefreshToken(c: Credential) returns (r: Result<TokenReply, ()>)
      modifies this
      ensures submissions == old(submissions) && checkedIn == old(checkedIn) && old(last) <= last
      ensures if r.Ok? && Carries(r.value)
              then issues == old(issues) + 1 && refreshes == old(refreshes) + 1 && delivered
                   && newest == Renewed(c, r.value) && old(last) < newest.access <= last && accepted == newest.access
              else NothingIssued() || LostPair()
      ensures cooperative && c.refresh == old(renewable) ==> r.Ok? && Carries(r.value)
    {
      var answer: Result<TokenReply, ()> := *;
      var issue: bool, arrives: bool, rotates: bool, gap: nat := *, *, *, *;
      if cooperative { issue, arrives := c.refresh == renewable, true; }
      if !issue {
        return if answer.Ok? && Carries(answer.value) then Err(()) else answer;
      }
      var access := last + 1 + gap;
      renewable := if rotates then access + 1 else c.refresh;
      accepted, last := access, access + 1;
      newest, delivered, issues := Credential(access, renewable, c.variant), arrives, issues + 1;
      if arrives {
        refreshes := refreshes + 1;
        return Ok(TokenReply(200, 0, access, if rotates then renewable else NO_TOKEN));
      }
      return if answer.Ok? && Carries(answer.value) then Err(()) else answer;
    }
  }

  /** The caller's credential, overwritten in place by a refresh. */
  class Holder {
    var credential: Credential

    constructor (credential: Credential)
      ensures this.credential == credential
    {
      this.credential := credential;
    }
  }

  class Client {
    const server: Server

    constructor (server: Server)
      ensures this.server == server
    {
      this.server := server;
    }

    /** A new credential, not yet stored anywhere. */
    method Refresh(c: Credential) returns (r: Result<Credential, CheckinError>)
      modifies server
      ensures server.submissions == old(server.submissions) && server.checkedIn == old(server.checkedIn) && old(server.last) <= server.last
      ensures if r.Ok?
              then server.issues == old(server.issues) + 1 && server.refreshes == old(server.refreshes) + 1 && server.delivered
                   && r.value == server.newest && r.value.variant == c.variant
                   && old(server.last) < r.value.access <= server.last && r.value.access == server.accepted
              else server.NothingIssued() || server.LostPair()
      ensures c.refresh == NO_TOKEN ==> r.Err? && server.NothingIssued()
      ensures server.cooperative && c.refresh != NO_TOKEN && c.refresh == old(server.renewable) ==> r.Ok?
    {
      if c.refresh == NO_TOKEN { return Err(RefreshFailed); }
      var reply := server.RefreshToken(c);
      if reply.Err? { return Err(Transport); }
      if !Good(reply.value.status) || !SuccessCode(reply.value.code) || reply.value.access == NO_TOKEN { return Err(RefreshFailed); }
      return Ok(Renewed(c, reply.value));
    }

    /** Both status addresses in order; the first recognised answer decides. */
    method FetchCheckinStatusOnce(c: Credential) returns (r: Result<bool, CheckinError>)
      modifies server
      ensures server.OnlyAsked()
      ensures r == Ok(true) ==> server.checkedIn
      ensures server.cooperative ==> if c.access == server.accepted then r == Ok(server.checkedIn) else r == Err(Unauthorized)
    {
      for attempt := 0 to 2
        invariant server.OnlyAsked()
        invariant server.cooperative ==> attempt == 0
      {
        var reply := server.Status(c);
        if reply.Err? { return Err(Transport); }
        var value := reply.value;
        if IsUnauthorized(value) { return Err(Unauthorized); }
        if Good(value.status) && IsSuccess(value) && value.checked.Some? { return Ok(value.checked.value); }
      }
      return Err(NoActivity);
    }

    /**
      What a call does to the credential.  At most one renewal succeeds and few
      pairs are issued at all.  Whoever held the newest pair exactly when it was
      delivered still does: afterwards the credential is the newest pair the
      server has issued if and only if the answer that carried it arrived.
    */
    twostate predicate Renewal(refreshed: bool, most: nat, holder: Holder)
      reads server, holder
    {
      && server.refreshes == old(server.refreshes) + (if refreshed then 1 else 0)
      && old(server.issues) <= server.issues <= old(server.issues) + most
      && (if refreshed then holder.credential == server.newest && server.delivered else holder.credential == old(holder.credential))
      && (old(Current(server, holder.credential)) ==> Current(server, holder.credential))
    }

    /** The status, with one renewal of the credential when it is not accepted. */
    method FetchCheckinStatus(holder: Holder) returns (r: Result<bool, CheckinError>, refreshed: bool)
      modifies server, holder
      ensures server.submissions == old(server.submissions) && (old(server.checkedIn) ==> server.checkedIn)
      ensures Renewal(refreshed, 1, holder) && (r.Ok? && !refreshed ==> server.NothingIssued())
      ensures holder.credential.variant == old(holder.credential).variant
      ensures holder.credential.variant != CN ==> r == Err(NoActivity) && !refreshed && server.OnlyAsked()
      ensures r == Ok(true) ==> server.checkedIn
      ensures server.cooperative && old(Usable(server, holder.credential)) ==> r == Ok(server.checkedIn) && holder.credential.access == server.accepted
    {
      if holder.credential.variant != CN { return Err(NoActivity), false; }
      r := FetchCheckinStatusOnce(holder.credential);
      if r.Ok? { return r, false; }
      if r.error != Unauthorized || holder.credential.refresh == NO_TOKEN { return r, false; }
      var next := Refresh(holder.credential);
      if next.Err? { return Err(next.error), false; }
      holder.credential := next.value;
      r := FetchCheckinStatusOnce(holder.credential);
      return r, true;
    }

    /** Submits once; an answer without an explicit signal is checked against the status. */
    method CheckinOnce(c: Credential) returns (r: Result<bool, CheckinError>)
      modifies server
      ensures server.submissions == old(server.submissions) + 1 && server.NothingIssued()
      ensures old(server.checkedIn) ==> server.checkedIn
      ensures r.Ok? ==> server.checkedIn
      ensures server.cooperative ==> r == if c.access == server.accepted then Ok(old(server.checkedIn)) else Err(Unauthorized)
    {
      var reply := server.Submit(c);
      if reply.Err? { return Err(Transport); }
      var value := reply.value;
      if IsUnauthorized(value) { return Err(Unauthorized); }
      if value.repeated { return Ok(true); }
      if !Good(value.status) { return Err(Refused); }
      if ExplicitSuccess(value) { return Ok(false); }
      var confirmed := FetchCheckinStatusOnce(c);
      if confirmed.Err? { return Err(confirmed.error); }
      if confirmed.value { return Ok(false); }
      return Err(Unconfirmed);
    }

    /**
      The balance; a credential about to expire is renewed beforehand if that
      works, and one that is refused is renewed once, but never both.
    */
    method FetchCredits(holder: Holder, expiresSoon: bool) returns (r: Result<(), CheckinError>, refreshed: bool)
      modifies server, holder
      ensures server.submissions == old(server.submissions) && (old(server.checkedIn) ==> server.checkedIn)
      ensures Renewal(refreshed, 2, holder)
      ensures server.cooperative && old(Usable(server, holder.credential)) ==> r.Ok?
    {
      refreshed := false;
      if expiresSoon && holder.credential.refresh != NO_TOKEN {
        var next := Refresh(holder.credential);
        if next.Ok? {
          holder.credential := next.value;
          refreshed := true;
        }
      }
      r := server.Credits(holder.credential);
      if r.Ok? { return; }
      if r.error != Unauthorized || refreshed || holder.credential.refresh == NO_TOKEN { return; }
      var next := Refresh(holder.credential);
      if next.Err? { return Err(next.error), refreshed; }
      holder.credential := next.value;
      r := server.Credits(holder.credential);
      return r, true;
    }

    /**
      Checks in unless that was already done.  No error is returned only when
      the server is checked in; the credential is renewed at most once and the
      check-in is submitted at most twice, the second time only with a renewed
      credential.
    */
    method Checkin(holder: Holder) returns (r: Result<bool, CheckinError>, refreshed: bool)
      modifies server, holder
      ensures r.Ok? ==> server.checkedIn
      ensures server.submissions <= old(server.submissions) + 2
      ensures server.submissions == old(server.submissions) + 2 ==> refreshed
      ensures Renewal(refreshed, 1, holder)
      ensures r == Ok(false) ==> server.submissions > old(server.submissions)
      ensures holder.credential.variant != CN ==> r.Err? && server.submissions == old(server.submissions) && !refreshed
      ensures server.cooperative && old(holder.credential.variant) == CN && old(Usable(server, holder.credential)) ==>
                && r.Ok? && (r.value <==> server.submissions == old(server.submissions))
                && (old(server.checkedIn) ==> r.value)
    {
      var status;
      status, refreshed := FetchCheckinStatus(holder);
      if status.Err? { return Err(status.error), refreshed; }
      if status.value { return Ok(true), refreshed; }
      r := CheckinOnce(holder.credential);
      if r.Ok? { return r, refreshed; }
      if r.error != Unauthorized || refreshed || holder.credential.refresh == NO_TOKEN { return r, refreshed; }
      var next := Refresh(holder.credential);
      if next.Err? { return Err(next.error), refreshed; }
      holder.credential := next.value;
      r := CheckinOnce(holder.credential);
      return r, true;
    }
  }

  /** The credential is in circulation, and is the newest pair exactly when that pair was delivered. */
  ghost predicate Current(server: Server, c: Credential)
    reads server
  {
    c.access <= server.last && server.newest.access <= server.last && (c == server.newest <==> server.delivered)
  }

  /** The server accepts the access token, or would renew it. */
  ghost predicate Usable(server: Server, c: Credential)
    reads server
  {
    c.variant == CN && (c.access == server.accepted || (c.refresh != NO_TOKEN && c.refresh == server.renewable))
  }
}
