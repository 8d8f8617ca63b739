/**
 One-time import links, server-preview/pinus_import.py:61-103. The table maps a
 token to its row; hashing and encryption are treated as injective, so the token
 stands for its digest and the payload for its ciphertext. Each method is one
 database transaction.
 */
module Tokens {
  import opened Options

  datatype Row = Row(owner: int, profile: int, expires: int, payload: string)

  type Table = map<string, Row>

  const MAX_CONFIG := 1024 * 1024
  const MAX_TTL := 300

  // ----------------------------------------------------------------- requests

  predicate TokenChar(c: char) {
    'A' <= c <= 'Z' || 'a' <= c <= 'z' || '0' <= c <= '9' || c == '_' || c == '-'
  }

  predicate WellShaped(token: string) {
    |token| == 43 && forall i :: 0 <= i < |token| ==> TokenChar(token[i])
  }

  const FORBIDDEN: set<char> := {'\\', '/', ':', '*', '?', '"', '<', '>', '|', '\0', '\r', '\n'}

  predicate ValidName(name: string) {
    1 <= |name| <= 32 && forall i :: 0 <= i < |name| ==> name[i] !in FORBIDDEN
  }

  /** What `issue` accepts; `size` is the length of the UTF-8 encoding of the configuration. */
  predicate Acceptable(ttl: int, size: nat, name: string) {
    1 <= ttl <= MAX_TTL && size <= MAX_CONFIG && ValidName(name)
  }

  /** The limits on a request, spelled out. */
  lemma AcceptableExactly(ttl: int, size: nat, name: string)
    ensures Acceptable(ttl, size, name) <==>
            && 1 <= ttl <= 300 && size <= 1048576 && 1 <= |name| <= 32
            && forall c :: c in name ==> c !in "\\/:*?\"<>|\0\r\n"
  {
    forall c: char ensures c in FORBIDDEN <==> c in "\\/:*?\"<>|\0\r\n" {
      var s := "\\/:*?\"<>|\0\r\n";
      assert |s| == 12 && s[0] in FORBIDDEN && s[11] in FORBIDDEN;
    }
  }

  // ------------------------------------------------------------- table updates

  function Purge(t: Table, now: int): Table {
    map k | k in t && t[k].expires > now :: t[k]
  }

  function DropProfile(t: Table, owner: int, profile: int): Table {
    map k | k in t && !(t[k].owner == owner && t[k].profile == profile) :: t[k]
  }

  function DropOwner(t: Table, owner: int): Table {
    map k | k in t && t[k].owner != owner :: t[k]
  }

  function DropToken(t: Table, token: string): Table {
    map k | k in t && k != token :: t[k]
  }

  /** What a claim answers: the payload of a row that is there and not yet expired. */
  function Answer(t: Table, token: string, at: real): Option<string> {
    if WellShaped(token) && token in t && at < t[token].expires as real then Some(t[token].payload) else None
  }

  predicate OnePerProfile(t: Table) {
    forall a, b :: a in t && b in t && a != b ==> t[a].owner != t[b].owner || t[a].profile != t[b].profile
  }

  datatype IssueResult = Issued | InvalidRequest | Collision

  class TokenStore {
    var rows: Table

    ghost predicate Valid()
      reads this
    {
      OnePerProfile(rows) && forall k :: k in rows ==> WellShaped(k)
    }

    constructor ()
      ensures Valid() && rows == map[]
    {
      rows := map[];
    }

    method Issue(token: string, clock: real, owner: int, profile: int, name: string, size: nat, payload: string,
                 ttl: int)
      returns (r: IssueResult)
      requires Valid() && WellShaped(token)
      modifies this
      ensures Valid()
      ensures r == InvalidRequest <==> !Acceptable(ttl, size, name)
      ensures r != Issued ==> rows == old(rows)
      ensures r == Issued ==>
                rows == Run(old(rows), IssueOp(clock, token, owner, profile, ttl, payload), true)
      ensures r == Collision ==> token in old(rows)
    {
      if !Acceptable(ttl, size, name) { return InvalidRequest; }
      var now := clock.Floor;
      var left := DropProfile(Purge(rows, now), owner, profile);
      if token in left { return Collision; }
      rows := left[token := Row(owner, profile, now + ttl, payload)];
      r := Issued;
    }

    method Revoke(owner: int, profile: Option<int>, ghost clock: real)
      requires Valid()
      modifies this
      ensures Valid() && rows == Run(old(rows), RevokeOp(clock, owner, profile), true)
    {
      if profile.None? {
        rows := DropOwner(rows, owner);
      } else {
        rows := DropProfile(rows, owner, profile.value);
      }
    }

    /** The row goes whether or not it is still valid; only then is its expiry looked at. */
    method Claim(token: string, clock: real) returns (payload: Option<string>)
      requires Valid()
      modifies this
      ensures Valid() && payload == Answer(old(rows), token, clock)
      ensures rows == Run(old(rows), ClaimOp(clock, token), true)
    {
      payload := None;
      if !WellShaped(token) { return; }
      var found := token in rows;
      var row := if found then rows[token] else Row(0, 0, 0, "");
      rows := DropToken(rows, token);
      if !found || row.expires as real <= clock { return; }
      payload := Some(row.payload);
    }
  }

  // ------------------------------------------------------------------ histories

  datatype Op =
    | IssueOp(at: real, token: string, owner: int, profile: int, ttl: int, payload: string)
    | RevokeOp(at: real, owner: int, only: Option<int>)
    | ClaimOp(at: real, token: string)

  function Run(t: Table, op: Op, purging: bool): Table {
    match op
    case IssueOp(at, token, owner, profile, ttl, payload) =>
      DropProfile(if purging then Purge(t, at.Floor) else t, owner, profile)[token := RowOf(op)]
    case RevokeOp(_, owner, None) => DropOwner(t, owner)
    case RevokeOp(_, owner, Some(profile)) => DropProfile(t, owner, profile)
    case ClaimOp(_, token) => DropToken(t, token)
  }

  function RowOf(op: Op): Row
    requires op.IssueOp?
  {
    Row(op.owner, op.profile, op.at.Floor + op.ttl, op.payload)
  }

  /** The table after a history; with `purging` false, the table of a server that never purges. */
  function TableAfter(h: seq<Op>, purging: bool): Table {
    if h == [] then map[] else Run(TableAfter(h[..|h| - 1], purging), h[|h| - 1], purging)
  }

  /** Random tokens do not repeat, and the clock does not run backwards. */
  ghost predicate Plausible(h: seq<Op>) {
    && (forall i, j :: 0 <= i < j < |h| ==> h[i].at <= h[j].at)
    && (forall i :: 0 <= i < |h| && h[i].IssueOp? ==> WellShaped(h[i].token))
    && (forall i, j :: 0 <= i < j < |h| && h[i].IssueOp? && h[j].IssueOp? ==> h[i].token != h[j].token)
  }

  ghost predicate NotBefore(h: seq<Op>, at: real) {
    forall i :: 0 <= i < |h| ==> h[i].at <= at
  }

  // ---------------------------------------------------- the reference semantics

  /** Whether `op` ends the life of the link issued by `issue`: superseded, revoked or claimed. */
  predicate Ends(op: Op, issue: Op)
    requires issue.IssueOp?
  {
    match op
    case IssueOp(_, _, owner, profile, _, _) => owner == issue.owner && profile == issue.profile
    case RevokeOp(_, owner, profile) => owner == issue.owner && (profile.None? || profile.value == issue.profile)
    case ClaimOp(_, token) => token == issue.token
  }

  predicate Alive(h: seq<Op>, i: nat)
    requires i < |h|
  {
    h[i].IssueOp? && forall j :: i < j < |h| ==> !Ends(h[j], h[i])
  }

  /** The link was issued and since then not superseded, revoked, claimed or expired. */
  ghost predicate Claimable(h: seq<Op>, token: string, at: real, payload: string) {
    exists i :: 0 <= i < |h| && Alive(h, i) && h[i].token == token && h[i].payload == payload
                && at < (h[i].at.Floor + h[i].ttl) as real
  }

  /** Every link of a history was accepted. */
  ghost predicate Accepted(h: seq<Op>) {
    forall i :: 0 <= i < |h| && h[i].IssueOp? ==> 1 <= h[i].ttl <= 300
  }

  // ------------------------------------------------------------------- theorems

  lemma PlausiblePrefix(h: seq<Op>)
    requires Plausible(h) && h != []
    ensures Plausible(h[..|h| - 1]) && NotBefore(h[..|h| - 1], h[|h| - 1].at)
  {
  }

  /** Over every history there is at most one live link per owner and profile. */
  lemma {:induction false} OneLinkPerProfile(h: seq<Op>, purging: bool)
    ensures OnePerProfile(TableAfter(h, purging))
  {
    if h != [] {
      OneLinkPerProfile(h[..|h| - 1], purging);
    }
  }

  /** `p` is `q` minus rows that have expired by `at`. */
  ghost predicate Lags(p: Table, q: Table, at: real) {
    && (forall k :: k in p ==> k in q && p[k] == q[k])
    && (forall k :: k in q && k !in p ==> q[k].expires as real <= at)
  }

  lemma PurgeLags(p: Table, q: Table, at: real)
    requires Lags(p, q, at)
    ensures Lags(Purge(p, at.Floor), q, at)
  {
  }

  lemma RunLags(p: Table, q: Table, op: Op)
    requires Lags(p, q, op.at)
    ensures Lags(Run(p, op, true), Run(q, op, false), op.at)
  {
    if op.IssueOp? { PurgeLags(p, q, op.at); }
  }

  /** The purging table is the other one minus rows that have expired. */
  lemma {:induction false} PurgeDropsOnlyExpired(h: seq<Op>, at: real)
    requires Plausible(h) && NotBefore(h, at)
    ensures Lags(TableAfter(h, true), TableAfter(h, false), at)
  {
    if h != [] {
      PlausiblePrefix(h);
      PurgeDropsOnlyExpired(h[..|h| - 1], h[|h| - 1].at);
      RunLags(TableAfter(h[..|h| - 1], true), TableAfter(h[..|h| - 1], false), h[|h| - 1]);
      assert h[|h| - 1].at <= at;
    }
  }

  /** So no claim can tell whether expired rows were purged. */
  lemma PurgingIsUnobservable(h: seq<Op>, token: string, at: real)
    requires Plausible(h) && NotBefore(h, at)
    ensures Answer(TableAfter(h, true), token, at) == Answer(TableAfter(h, false), token, at)
  {
    PurgeDropsOnlyExpired(h, at);
  }

  lemma AliveExtends(h: seq<Op>, i: nat)
    requires i < |h| - 1
    ensures Alive(h, i) <==> Alive(h[..|h| - 1], i) && !Ends(h[|h| - 1], h[i])
  {
  }

  /** Without purging, the table holds exactly the rows of the links that are alive. */
  lemma {:induction false} TableHoldsTheAlive(h: seq<Op>, token: string)
    requires Plausible(h)
    ensures token in TableAfter(h, false) ==>
              exists i :: 0 <= i < |h| && Alive(h, i) && h[i].token == token
                  && TableAfter(h, false)[token] == RowOf(h[i])
    ensures forall i :: 0 <= i < |h| && Alive(h, i) && h[i].token == token ==>
              token in TableAfter(h, false) && TableAfter(h, false)[token] == RowOf(h[i])
  {
    if h != [] {
      var n, g, op := |h| - 1, h[..|h| - 1], h[|h| - 1];
      PlausiblePrefix(h);
      TableHoldsTheAlive(g, token);
      var t := TableAfter(h, false);
      if token in t {
        if op.IssueOp? && op.token == token {
          assert Alive(h, n);
        } else {
          var i :| 0 <= i < |g| && Alive(g, i) && g[i].token == token && TableAfter(g, false)[token] == RowOf(g[i]);
          AliveExtends(h, i);
          assert Alive(h, i);
        }
      }
      forall i | 0 <= i < |h| && Alive(h, i) && h[i].token == token ensures token in t && t[token] == RowOf(h[i]) {
        if i < n {
          AliveExtends(h, i);
          assert Alive(g, i) && g[i].token == token;
        }
      }
    }
  }

  /** Under a monotone clock a claim succeeds exactly when the reference semantics says so. */
  lemma ClaimExactly(h: seq<Op>, token: string, at: real, payload: string)
    requires Plausible(h) && NotBefore(h, at) && WellShaped(token)
    ensures Answer(TableAfter(h, true), token, at) == Some(payload) <==> Claimable(h, token, at, payload)
  {
    PurgingIsUnobservable(h, token, at);
    TableHoldsTheAlive(h, token);
  }

  /** A live link is answered for as long as was asked when it was issued, and not a moment longer. */
  lemma LinkLivesItsTime(h: seq<Op>, i: nat, at: real)
    requires Plausible(h) && NotBefore(h, at) && i < |h| && Alive(h, i)
    ensures Answer(TableAfter(h, true), h[i].token, at)
            == if at < (h[i].at.Floor + h[i].ttl) as real then Some(h[i].payload) else None
  {
    PurgingIsUnobservable(h, h[i].token, at);
    TableHoldsTheAlive(h, h[i].token);
  }

  /** Whatever is delivered was issued less than 300 seconds before. */
  lemma NeverDeliveredLate(h: seq<Op>, token: string, at: real)
    requires Plausible(h) && Accepted(h) && NotBefore(h, at) && WellShaped(token)
    requires Answer(TableAfter(h, true), token, at).Some?
    ensures exists i :: 0 <= i < |h| && h[i].IssueOp? && h[i].token == token && h[i].at <= at < h[i].at + 300.0
  {
    ClaimExactly(h, token, at, Answer(TableAfter(h, true), token, at).value);
    var i :| 0 <= i < |h| && Alive(h, i) && h[i].token == token && at < (h[i].at.Floor + h[i].ttl) as real;
    assert h[i].at.Floor as real <= h[i].at && h[i].ttl <= 300;
  }

  /** Issuing leaves no expired row behind. */
  lemma IssueSweeps(h: seq<Op>)
    requires h != [] && h[|h| - 1].IssueOp? && h[|h| - 1].ttl >= 1
    ensures forall k :: k in TableAfter(h, true) ==> TableAfter(h, true)[k].expires > h[|h| - 1].at.Floor
  {
  }

  /** After a claim of a token, answered or not, and no new issue of it, every claim is refused. */
  lemma {:induction false} ClaimedIsGone(h: seq<Op>, first: nat, token: string, at: real)
    requires Plausible(h) && NotBefore(h, at) && WellShaped(token)
    requires first < |h| && h[first] == ClaimOp(h[first].at, token)
    requires forall i :: first < i < |h| && h[i].IssueOp? ==> h[i].token != token
    ensures Answer(TableAfter(h, true), token, at) == None
  {
    var t := TableAfter(h, true);
    if Answer(t, token, at).Some? {
      var payload := Answer(t, token, at).value;
      ClaimExactly(h, token, at, payload);
    }
  }

  ghost predicate ClaimAt(h: seq<Op>, i: nat, token: string) {
    i < |h| && h[i].ClaimOp? && h[i].token == token
  }

  /** What the claim at step `i` of a history was answered. */
  ghost function AnswerAt(h: seq<Op>, i: nat): Option<string>
    requires i < |h| && h[i].ClaimOp?
  {
    Answer(TableAfter(h[..i], true), h[i].token, h[i].at)
  }

  lemma AnsweredWasIssued(h: seq<Op>, i: nat, token: string)
    requires Plausible(h) && ClaimAt(h, i, token) && AnswerAt(h, i).Some?
    ensures exists k :: 0 <= k < i && h[k].IssueOp? && h[k].token == token
  {
    ClaimExactly(h[..i], token, h[i].at, AnswerAt(h, i).value);
    var k :| 0 <= k < i && Alive(h[..i], k) && h[..i][k].token == token;
    assert h[k].IssueOp? && h[k].token == token;
  }

  /**
   A payload is delivered at most once: of any two claims of a
   token, if the first is answered the second is refused.
   */
  lemma DeliveredAtMostOnce(h: seq<Op>, i: nat, j: nat, token: string)
    requires Plausible(h) && i < j && ClaimAt(h, i, token) && ClaimAt(h, j, token)
    ensures AnswerAt(h, i).Some? ==> AnswerAt(h, j) == None
  {
    if AnswerAt(h, i).Some? {
      AnsweredWasIssued(h, i, token);
      ClaimedIsGone(h[..j], i, token, h[j].at);
    }
  }
}
