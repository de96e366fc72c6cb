/**
 * Referral handlers (server/controllers/referralController.js): a client
 * asks for a referral code, admins list referrals and set their status, and
 * a prospect looks a referral up by its code. The four random bytes of the
 * code and the email validator are parameters.
 */
module ReferralController {
  import opened Wrappers
  import opened JsStrings
  import opened Tables
  import opened Http
  import opened UserModel
  import opened ReferralModel
  import opened EstimateModel
  import opened Database

  // ------------------------------------------------------- referral codes

  newtype Byte = b: int | 0 <= b < 256

  predicate IsLowerHex(c: char) {
    '0' <= c <= '9' || 'a' <= c <= 'f'
  }

  predicate AllLowerHex(s: string) {
    forall i :: 0 <= i < |s| ==> IsLowerHex(s[i])
  }

  function HexDigit(n: int): (c: char)
    requires 0 <= n < 16
    ensures IsLowerHex(c)
  {
    if n < 10 then ('0' as int + n) as char else ('a' as int + n - 10) as char
  }

  function DigitValue(c: char): (n: int)
    requires IsLowerHex(c)
    ensures 0 <= n < 16
  {
    if c <= '9' then c as int - '0' as int else c as int - 'a' as int + 10
  }

  /** `Buffer.toString('hex')`: two lower-case hex digits per byte, high nibble first. */
  function Hex(bytes: seq<Byte>): (r: string)
    ensures |r| == 2 * |bytes| && AllLowerHex(r)
  {
    if bytes == [] then []
    else
      var rest := Hex(bytes[1..]);
      var head := [HexDigit(bytes[0] as int / 16), HexDigit(bytes[0] as int % 16)];
      assert forall i :: 2 <= i < |rest| + 2 ==> (head + rest)[i] == rest[i - 2];
      head + rest
  }

  /** Reads back the bytes of a hex string. */
  function ParseHex(s: string): (bytes: seq<Byte>)
    requires |s| % 2 == 0 && AllLowerHex(s)
    ensures |bytes| == |s| / 2
  {
    if s == [] then []
    else [(DigitValue(s[0]) * 16 + DigitValue(s[1])) as Byte] + ParseHex(s[2..])
  }

  lemma DigitRoundTrip(n: int)
    requires 0 <= n < 16
    ensures DigitValue(HexDigit(n)) == n
  {
  }

  /** The two digits of one byte read back as that byte. */
  lemma ByteRoundTrip(b: Byte)
    ensures (DigitValue(HexDigit(b as int / 16)) * 16 + DigitValue(HexDigit(b as int % 16))) as Byte == b
  {
    var n := b as int;
    DigitRoundTrip(n / 16);
    DigitRoundTrip(n % 16);
    assert (n / 16) * 16 + n % 16 == n;
  }

  /** The hex encoding loses nothing: distinct random bytes give distinct codes. */
  lemma {:induction false} HexRoundTrip(bytes: seq<Byte>)
    ensures ParseHex(Hex(bytes)) == bytes
  {
    if bytes != [] {
      var h := Hex(bytes);
      HexRoundTrip(bytes[1..]);
      assert h[2..] == Hex(bytes[1..]);
      ByteRoundTrip(bytes[0]);
      assert ParseHex(h) == [(DigitValue(h[0]) * 16 + DigitValue(h[1])) as Byte] + ParseHex(h[2..]);
    }
  }

  /** `crypto.randomBytes(4).toString('hex')`: exactly eight lower-case hex characters. */
  lemma ReferralCodeShape(random: seq<Byte>)
    requires |random| == 4
    ensures |Hex(random)| == 8 && AllLowerHex(Hex(random))
  {
  }

  // ------------------------------------------------------ create referral

  datatype ReferralRequest = ReferralRequest(
    email: Option<string>,
    selectedReward: Option<string>,
    prospectName: Option<string>,
    prospectEmail: Option<string>)

  /** `email ? email.toLowerCase() : ''`. */
  function NormalizedEmail(email: Option<string>): (r: string)
    ensures IsLowerCase(r)
  {
    if Filled(email) then LowerIsLowerCase(email.value); Lower(email.value) else ""
  }

  /** `User.findOne({ where: { email } })` on the normalized email, in any tenant. */
  function FindClient(users: seq<Row<User>>, email: Option<string>): (r: Option<nat>)
    ensures r.None? <==> forall i :: 0 <= i < |users| ==> users[i].val.email != NormalizedEmail(email)
    ensures r.Some? ==> r.value < |users| && users[r.value].val.email == NormalizedEmail(email)
                        && forall j :: 0 <= j < r.value ==> users[j].val.email != NormalizedEmail(email)
  {
    var e := NormalizedEmail(email);
    FindFirst(users, (u: User) => u.email == e)
  }

  /**
   * `referralData`: the found user's id, the code, the reward as sent and
   * status Open; `prospectName` only when truthy, `prospectEmail` (untrimmed)
   * only when it is not blank. `tenantId` is what the handler supplies.
   */
  function ReferralData(req: ReferralRequest, tenantId: Option<int>, userId: int, code: string): (d: ReferralDraft)
    ensures d.tenantId == tenantId && d.userId == Some(userId) && d.code == Some(code)
    ensures d.selectedReward == req.selectedReward && d.status == Some(Open)
    ensures d.prospectName == (if Filled(req.prospectName) then req.prospectName else None)
    ensures d.prospectEmail.Some? <==> req.prospectEmail.Some? && !IsBlank(req.prospectEmail.value)
    ensures d.prospectEmail.Some? ==> d.prospectEmail == req.prospectEmail
  {
    ReferralDraft(
      tenantId, Some(userId), Some(code),
      if req.prospectEmail.Some? && !IsBlank(req.prospectEmail.value) then req.prospectEmail else None,
      if Filled(req.prospectName) then req.prospectName else None,
      req.selectedReward, Some(Open))
  }

  /** The draft as written never names a tenant, and the NOT NULL `tenantId` refuses it, whatever the request. */
  lemma DraftWithoutTenantRejected(req: ReferralRequest, userId: int, code: string, isEmail: string -> bool)
    ensures BuildReferral(ReferralData(req, None, userId, code), isEmail) == Err(NotNullViolation("tenantId"))
  {
  }

  /**
   * `createReferral` as written: 404 for an unknown client; for a known
   * client `Referral.create` is handed no `tenantId`, so it always fails
   * and the handler answers 500. Nothing is stored either way.
   */
  method CreateReferralAsWritten(db: Store, req: ReferralRequest, random: seq<Byte>, isEmail: string -> bool)
    returns (resp: Response<Row<Referral>>)
    requires db.Valid() && |random| == 4
    ensures FindClient(db.users, req.email).None? ==> resp == Refuse(404, "Client not found. Please contact support.")
    ensures FindClient(db.users, req.email).Some? ==> resp == Refuse(500, "Server error")
  {
    var found := FindClient(db.users, req.email);
    if found.None? {
      return Refuse(404, "Client not found. Please contact support.");
    }
    var user := db.users[found.value];
    var created := BuildReferral(ReferralData(req, None, user.id, Hex(random)), isEmail);
    assert created.Err?;
    return Refuse(500, "Server error");
  }

  /**
   * `createReferral` with the referral filed under the client's own tenant:
   * 404 for an unknown client; otherwise the new referral is Open, belongs
   * to the found client and carries the generated code. A row the table
   * refuses (no reward, a bad prospect email, a code taken in the tenant)
   * gives 500 and stores nothing.
   */
  method CreateReferral(db: Store, req: ReferralRequest, random: seq<Byte>, isEmail: string -> bool)
    returns (resp: Response<Row<Referral>>)
    requires db.Valid() && |random| == 4
    modifies db`referrals, db`nextReferralId
    ensures db.Valid()
    ensures FindClient(db.users, req.email).None? ==> resp == Refuse(404, "Client not found. Please contact support.")
    ensures !resp.Reply? ==> db.referrals == old(db.referrals)
    ensures resp.Reply? <==>
      && FindClient(db.users, req.email).Some?
      && var u := db.users[FindClient(db.users, req.email).value];
      && BuildReferral(ReferralData(req, Some(u.val.tenantId), u.id, Hex(random)), isEmail).Ok?
      && !CodeTaken(old(db.referrals), Hex(random), u.val.tenantId)
    ensures resp.Reply? ==>
      && var u := db.users[FindClient(db.users, req.email).value];
      && resp.status == 201 && db.referrals == old(db.referrals) + [resp.body]
      && resp.body.val.status == Open && resp.body.val.userId == u.id && resp.body.val.tenantId == u.val.tenantId
      && resp.body.val.code == Hex(random) && Some(resp.body.val.selectedReward) == req.selectedReward
      && resp.body.val.prospectName == (if Filled(req.prospectName) then req.prospectName else None)
      && resp.body.val.prospectEmail ==
           (if req.prospectEmail.Some? && !IsBlank(req.prospectEmail.value) then req.prospectEmail else None)
    ensures resp.Refuse? && FindClient(db.users, req.email).Some? ==> resp == Refuse(500, "Server error")
  {
    var found := FindClient(db.users, req.email);
    if found.None? {
      return Refuse(404, "Client not found. Please contact support.");
    }
    var user := db.users[found.value];
    var code := Hex(random);
    var created := BuildReferral(ReferralData(req, Some(user.val.tenantId), user.id, code), isEmail);
    if created.Err? {
      return Refuse(500, "Server error");
    }
    var id := db.InsertReferral(created.value);
    if id.Err? {
      return Refuse(500, "Server error");
    }
    return Reply(201, Row(id.value, created.value));
  }

  // ------------------------------------------------------- read handlers

  datatype ClientSummary = ClientSummary(name: string, email: string)

  /** A referral with its client's name and email and all its estimates. */
  datatype ReferralView = ReferralView(referral: Row<Referral>, client: Option<ClientSummary>, estimates: seq<Row<Estimate>>)

  function ViewOf(r: Row<Referral>, users: seq<Row<User>>, estimates: seq<Row<Estimate>>): (v: ReferralView)
    ensures v.referral == r
    ensures v.client.Some? <==> exists i :: 0 <= i < |users| && users[i].id == r.val.userId
    ensures v.client.Some? ==> exists i :: 0 <= i < |users| && users[i].id == r.val.userId
                                 && v.client.value == ClientSummary(users[i].val.name, users[i].val.email)
    ensures forall e :: e in v.estimates <==> e in estimates && e.val.referralId == r.id
    ensures Ascending(estimates) ==> Ascending(v.estimates)
  {
    var client := match IndexOfId(users, r.val.userId)
      case None => None
      case Some(i) => Some(ClientSummary(users[i].val.name, users[i].val.email));
    ReferralView(r, client, Where(estimates, (e: Estimate) => e.referralId == r.id))
  }

  /** `getReferrals`: every referral of every tenant, in key order, each with its client and estimates. */
  function GetReferrals(referrals: seq<Row<Referral>>, users: seq<Row<User>>, estimates: seq<Row<Estimate>>)
    : (r: seq<ReferralView>)
    ensures |r| == |referrals|
    ensures forall i :: 0 <= i < |r| ==> r[i] == ViewOf(referrals[i], users, estimates)
  {
    seq(|referrals|, i requires 0 <= i < |referrals| => ViewOf(referrals[i], users, estimates))
  }

  /** No tenant filter: the listing holds exactly the stored referrals, whatever tenant they belong to. */
  lemma GetReferralsListsAll(referrals: seq<Row<Referral>>, users: seq<Row<User>>, estimates: seq<Row<Estimate>>)
    ensures forall x :: x in referrals <==> exists v :: v in GetReferrals(referrals, users, estimates) && v.referral == x
  {
    var r := GetReferrals(referrals, users, estimates);
    forall x | x in referrals ensures exists v :: v in r && v.referral == x {
      var i :| 0 <= i < |referrals| && referrals[i] == x;
      assert r[i] in r && r[i].referral == x;
    }
  }

  /** `getReferralByCode`: the lowest-id referral with the code, in any tenant, or 404. */
  function GetReferralByCode(referrals: seq<Row<Referral>>, code: string): (r: Response<Row<Referral>>)
    ensures r.Refuse? <==> forall i :: 0 <= i < |referrals| ==> referrals[i].val.code != code
    ensures r.Refuse? ==> r == Refuse(404, "Invalid referral code")
    ensures r.Reply? ==> r.status == 200 && r.body in referrals && r.body.val.code == code
    ensures !r.NoReply?
  {
    match FindByCode(referrals, code)
    case None => Refuse(404, "Invalid referral code")
    case Some(i) => Reply(200, referrals[i])
  }

  /** Within one tenant, where codes are unique, the code names exactly the referral carrying it. */
  lemma CodeNamesOneReferralPerTenant(referrals: seq<Row<Referral>>, k: nat)
    requires CodeUniqueWithinTenant(referrals) && Ascending(referrals) && k < |referrals|
    requires forall j :: 0 <= j < |referrals| ==> referrals[j].val.tenantId == referrals[k].val.tenantId
    ensures GetReferralByCode(referrals, referrals[k].val.code) == Reply(200, referrals[k])
  {
    var i := FindByCode(referrals, referrals[k].val.code).value;
    assert referrals[i] in referrals && referrals[k] in referrals;
    assert referrals[i].id == referrals[k].id;
  }

  // ------------------------------------------------------- update status

  /**
   * `updateReferralStatus`: 404 for an unknown id; any status of the
   * enumeration is accepted from any current status (no transition check),
   * and a value outside it is refused by the database (500). Only the
   * status changes.
   */
  method UpdateReferralStatus(db: Store, id: int, status: string) returns (resp: Response<Row<Referral>>)
    requires db.Valid()
    modifies db`referrals
    ensures db.Valid()
    ensures IndexOfId(old(db.referrals), id).None? ==> resp == Refuse(404, "Referral not found")
    ensures IndexOfId(old(db.referrals), id).Some? && ParseStatus(status).None? ==> resp == Refuse(500, "Server error")
    ensures !resp.Reply? ==> db.referrals == old(db.referrals)
    ensures resp.Reply? <==> IndexOfId(old(db.referrals), id).Some? && ParseStatus(status).Some?
    ensures resp.Reply? ==>
      && var i := IndexOfId(old(db.referrals), id).value;
      && resp == Reply(200, Row(id, old(db.referrals[i].val).(status := ParseStatus(status).value)))
      && db.referrals == old(db.referrals)[i := resp.body]
  {
    var found := IndexOfId(db.referrals, id);
    if found.None? {
      return Refuse(404, "Referral not found");
    }
    var parsed := ParseStatus(status);
    if parsed.None? {
      return Refuse(500, "Server error");
    }
    db.SaveReferralStatus(found.value, parsed.value);
    return Reply(200, db.referrals[found.value]);
  }
}
