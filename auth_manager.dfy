/**
 * The meeting app's `AuthManager`: the account fields it keeps, how logout,
 * reset and the two login responses update them, the pretty personal
 * meeting id, and the settings it persists. HTTP requests and Qt signals
 * are not modelled; a response arrives as a map from member name to text.
 */
module AuthManagerModel {
  import opened ConfigStore

  /** A response body: member name to its `toString()` text; a missing member reads as "". */
  type Response = map<string, string>

  function Member(response: Response, name: string): (r: string)
    ensures name !in response ==> r == ""
    ensures name in response ==> r == response[name]
  {
    if name in response then response[name] else ""
  }

  /** `kLoginTypeByToken`; the header that fixes its number is not part of this model. */
  const LoginTypeByToken: int

  const PhoneNumberKey := "localPhoneNumber"
  const UserIdKey := "localUserId"
  const UserTokenKey := "localUserToken"
  const PaasAppKeyKey := "localPaasAppKey"
  const PaasAccountIdKey := "localPaasAccountId"
  const PaasAccountTokenKey := "localPaasAccountToken"

  // ------------------------------------------------------- pretty meeting id

  /** `QString::mid(position, n)`: at most `n` characters from `position`, clamped to the text. */
  function Mid(s: string, position: nat, n: nat): (r: string)
    ensures |r| <= n
    ensures position >= |s| ==> r == ""
    ensures position < |s| ==> r == s[position..if position + n <= |s| then position + n else |s|]
  {
    if position >= |s| then ""
    else if position + n <= |s| then s[position..position + n]
    else s[position..]
  }

  /** `QString::mid(position)`: everything from `position`, or "" past the end. */
  function MidFrom(s: string, position: nat): (r: string)
    ensures position >= |s| ==> r == ""
    ensures position < |s| ==> r == s[position..]
  {
    if position >= |s| then "" else s[position..]
  }

  /** The pretty form `setPersonalMeetingId` stores: "123-456-7890" for "1234567890". */
  function PrettyMeetingId(id: string): string
  {
    Mid(id, 0, 3) + "-" + Mid(id, 3, 3) + "-" + MidFrom(id, 6)
  }

  function Min(a: int, b: int): int
  {
    if a <= b then a else b
  }

  /** The id split after its third and sixth characters, as far as it reaches them. */
  lemma PrettyMeetingIdShape(id: string)
    ensures var a, b := Min(3, |id|), Min(6, |id|);
      PrettyMeetingId(id) == id[..a] + "-" + id[a..b] + "-" + id[b..]
  {
  }

  /** Dropping the two inserted dashes, at positions 3 and 7. */
  function PlainMeetingId(pretty: string): string
    requires |pretty| >= 8
  {
    pretty[..3] + pretty[4..7] + pretty[8..]
  }

  /**
   * An id of six or more characters gets exactly two dashes, at positions 3
   * and 7, and removing them gives the id back.
   */
  lemma PrettyMeetingIdRoundTrip(id: string)
    requires |id| >= 6
    ensures |PrettyMeetingId(id)| == |id| + 2
    ensures PrettyMeetingId(id)[3] == '-' && PrettyMeetingId(id)[7] == '-'
    ensures PlainMeetingId(PrettyMeetingId(id)) == id
  {
    var p := PrettyMeetingId(id);
    assert p == id[..3] + "-" + id[3..6] + "-" + id[6..];
    assert p[..3] == id[..3];
    assert p[4..7] == id[3..6];
    assert p[8..] == id[6..];
    assert id == id[..3] + id[3..6] + id[6..];
  }

  /** A cleared personal meeting id shows as "--". */
  lemma PrettyOfEmptyId()
    ensures PrettyMeetingId("") == "--"
  {
  }

  // ------------------------------------------------------------- the fields

  /** A snapshot of the account fields of `AuthManager`. */
  datatype AuthFields = AuthFields(
    phoneNumber: string, phonePrefix: string,
    appUserId: string, appUserOpenId: string, appUserToken: string, appUserNick: string,
    aPaasAccountId: string, aPaasAccountToken: string, authCodeInternal: string,
    curDisplayCompany: string, curDisplayVersion: string, maxDuration: string, maxMemberCount: string,
    shortPersonalMeetingId: string, personalMeetingId: string, prettyMeetingId: string,
    accountAppCount: nat)

  /**
   * The fields after `logout`: every text field is empty, the pretty id is
   * that of the empty id, and the account apps are gone, whatever they were.
   */
  function LoggedOut(f: AuthFields): (r: AuthFields)
    ensures r.prettyMeetingId == PrettyMeetingId("") && r.accountAppCount == 0
    ensures r.personalMeetingId == "" && r.shortPersonalMeetingId == "" && r.phoneNumber == ""
  {
    AuthFields("", "", "", "", "", "", "", "", "", "", "", "", "", "", "", PrettyMeetingId(""), 0)
  }

  /** Logout forgets everything: any two states log out to the same state. */
  lemma LoggedOutForgets(f: AuthFields, g: AuthFields)
    ensures LoggedOut(f) == LoggedOut(g)
  {
  }

  /**
   * The fields after `resetAuthInfo`: the user and account identity is
   * cleared; the personal and short meeting ids, the display company and
   * version, the duration and member limits and the account apps stay.
   */
  function AuthReset(f: AuthFields): (r: AuthFields)
    ensures r.appUserId == "" && r.appUserNick == "" && r.phoneNumber == "" && r.phonePrefix == ""
    ensures r.appUserToken == "" && r.appUserOpenId == "" && r.aPaasAccountId == ""
    ensures r.authCodeInternal == "" && r.aPaasAccountToken == ""
    ensures r.personalMeetingId == f.personalMeetingId && r.shortPersonalMeetingId == f.shortPersonalMeetingId
    ensures r.prettyMeetingId == f.prettyMeetingId
    ensures r.curDisplayCompany == f.curDisplayCompany && r.curDisplayVersion == f.curDisplayVersion
    ensures r.maxDuration == f.maxDuration && r.maxMemberCount == f.maxMemberCount
    ensures r.accountAppCount == f.accountAppCount
  {
    f.(appUserId := "", appUserNick := "", phoneNumber := "", phonePrefix := "", appUserToken := "",
       appUserOpenId := "", aPaasAccountId := "", authCodeInternal := "", aPaasAccountToken := "")
  }

  /** Resetting twice is resetting once, and a logout after a reset is just a logout. */
  lemma AuthResetLaws(f: AuthFields)
    ensures AuthReset(AuthReset(f)) == AuthReset(f)
    ensures LoggedOut(AuthReset(f)) == LoggedOut(f)
    ensures AuthReset(LoggedOut(f)) == LoggedOut(f)
  {
  }

  /** The fields a successful `onLoginCallback` fills from the response. */
  function LoginAccepted(f: AuthFields, response: Response): (r: AuthFields)
    ensures r.aPaasAccountId == Member(response, "userUuid") && r.aPaasAccountToken == Member(response, "userToken")
    ensures r.appUserNick == Member(response, "nickname")
    ensures r.personalMeetingId == Member(response, "privateMeetingNum")
    ensures r.prettyMeetingId == PrettyMeetingId(r.personalMeetingId)
    ensures r.shortPersonalMeetingId == Member(response, "shortMeetingNum")
    ensures r.(aPaasAccountId := f.aPaasAccountId, aPaasAccountToken := f.aPaasAccountToken,
               appUserNick := f.appUserNick, personalMeetingId := f.personalMeetingId,
               prettyMeetingId := f.prettyMeetingId, shortPersonalMeetingId := f.shortPersonalMeetingId) == f
  {
    var mid := Member(response, "privateMeetingNum");
    f.(aPaasAccountId := Member(response, "userUuid"), aPaasAccountToken := Member(response, "userToken"),
       appUserNick := Member(response, "nickname"), personalMeetingId := mid,
       prettyMeetingId := PrettyMeetingId(mid), shortPersonalMeetingId := Member(response, "shortMeetingNum"))
  }

  /** The fields a code-200 `loginToHttp` response fills. */
  function HttpLoginAccepted(f: AuthFields, response: Response): (r: AuthFields)
    ensures r.appUserNick == Member(response, "nickName") && r.phonePrefix == Member(response, "countryCode")
    ensures r.phoneNumber == Member(response, "mobilePhone") && r.appUserOpenId == Member(response, "userOpenId")
    ensures r.appUserId == Member(response, "userId") && r.appUserToken == Member(response, "meetingToken")
    ensures r.aPaasAccountId == Member(response, "accountId") && r.aPaasAccountToken == Member(response, "accountToken")
    ensures r.(appUserNick := f.appUserNick, phonePrefix := f.phonePrefix, phoneNumber := f.phoneNumber,
               appUserOpenId := f.appUserOpenId, appUserId := f.appUserId, appUserToken := f.appUserToken,
               aPaasAccountId := f.aPaasAccountId, aPaasAccountToken := f.aPaasAccountToken) == f
  {
    f.(appUserNick := Member(response, "nickName"), phonePrefix := Member(response, "countryCode"),
       phoneNumber := Member(response, "mobilePhone"), appUserOpenId := Member(response, "userOpenId"),
       appUserId := Member(response, "userId"), appUserToken := Member(response, "meetingToken"),
       aPaasAccountId := Member(response, "accountId"), aPaasAccountToken := Member(response, "accountToken"))
  }

  // ------------------------------------------------------------------ class

  /**
   * `AuthManager` itself. Its many `m_*` members are kept together in one
   * `AuthFields` record, which each setter updates one member at a time.
   */
  class AuthManager {
    var fields: AuthFields
    /** The settings store `AuthManager` reads and writes. */
    var config: Store

    /** The phone number field and its persisted copy agree. */
    predicate PhoneSynced()
      reads this
    {
      TextOr(config, PhoneNumberKey) == fields.phoneNumber
    }

    /** The constructor reads the phone number back from the settings; everything else starts empty. */
    constructor (config: Store)
      ensures this.config == config && PhoneSynced()
      ensures fields == AuthFields(TextOr(config, PhoneNumberKey), "", "", "", "", "", "", "", "",
                                   "", "", "", "", "", "", "", 0)
    {
      this.config := config;
      fields := AuthFields(TextOr(config, PhoneNumberKey), "", "", "", "", "", "", "", "",
                           "", "", "", "", "", "", "", 0);
    }

    /** `setPhoneNumber` stores the number and persists it. */
    method SetPhoneNumber(number: string)
      modifies this
      ensures fields == old(fields).(phoneNumber := number)
      ensures config == old(config)[PhoneNumberKey := Text(number)]
      ensures PhoneSynced()
    {
      fields := fields.(phoneNumber := number);
      config := config[PhoneNumberKey := Text(number)];
    }

    /** `setPersonalMeetingId` stores the id and its pretty form. */
    method SetPersonalMeetingId(id: string)
      modifies this
      ensures fields == old(fields).(personalMeetingId := id, prettyMeetingId := PrettyMeetingId(id))
      ensures config == old(config)
    {
      fields := fields.(personalMeetingId := id);
      var pretty := Mid(id, 0, 3) + "-" + Mid(id, 3, 3) + "-" + MidFrom(id, 6);
      fields := fields.(prettyMeetingId := pretty);
    }

    /** `logout`: the five cached login settings and every account field are cleared. */
    method Logout()
      modifies this
      ensures fields == LoggedOut(old(fields))
      ensures config == old(config)[UserIdKey := Text("")][UserTokenKey := Text("")][PaasAppKeyKey := Text("")]
                                   [PaasAccountIdKey := Text("")][PaasAccountTokenKey := Text("")]
                                   [PhoneNumberKey := Text("")]
      ensures PhoneSynced()
    {
      config := config[UserIdKey := Text("")][UserTokenKey := Text("")][PaasAppKeyKey := Text("")];
      config := config[PaasAccountIdKey := Text("")][PaasAccountTokenKey := Text("")];
      fields := fields.(curDisplayCompany := "", curDisplayVersion := "", maxDuration := "", maxMemberCount := "");
      fields := fields.(authCodeInternal := "", phonePrefix := "");
      SetPhoneNumber("");
      fields := fields.(appUserId := "", appUserOpenId := "", appUserToken := "", appUserNick := "");
      fields := fields.(aPaasAccountId := "", aPaasAccountToken := "");
      fields := fields.(shortPersonalMeetingId := "");
      SetPersonalMeetingId("");
      fields := fields.(accountAppCount := 0);
    }

    /** `resetAuthInfo`: the identity fields are cleared, the phone number also in the settings. */
    method ResetAuthInfo()
      modifies this
      ensures fields == AuthReset(old(fields))
      ensures config == old(config)[PhoneNumberKey := Text("")]
      ensures PhoneSynced()
    {
      fields := fields.(appUserId := "", appUserNick := "");
      SetPhoneNumber("");
      fields := fields.(phonePrefix := "", appUserToken := "", appUserOpenId := "", aPaasAccountId := "");
      fields := fields.(authCodeInternal := "", aPaasAccountToken := "");
    }

    /**
     * `onLoginCallback`: code 0 takes the account, nickname and meeting ids
     * from the response; any other code only clears the phone number.
     */
    method OnLoginCallback(code: int, response: Response)
      modifies this
      ensures code == 0 ==> fields == LoginAccepted(old(fields), response) && config == old(config)
      ensures code != 0 ==>
        fields == old(fields).(phoneNumber := "") && config == old(config)[PhoneNumberKey := Text("")]
      ensures old(PhoneSynced()) ==> PhoneSynced()
    {
      if code == 0 {
        fields := fields.(aPaasAccountId := Member(response, "userUuid"));
        fields := fields.(aPaasAccountToken := Member(response, "userToken"));
        fields := fields.(appUserNick := Member(response, "nickname"));
        SetPersonalMeetingId(Member(response, "privateMeetingNum"));
        fields := fields.(shortPersonalMeetingId := Member(response, "shortMeetingNum"));
      } else {
        SetPhoneNumber("");
      }
    }

    /**
     * The `loginToHttp` response handler: code 200 takes the user fields
     * from the response and caches the user id and meeting token; any other
     * code blanks that cache when the login was by token.
     */
    method LoginToHttpFinished(loginType: int, code: int, response: Response)
      modifies this
      ensures code == 200 ==>
        && fields == HttpLoginAccepted(old(fields), response)
        && config == old(config)[PhoneNumberKey := Text(Member(response, "mobilePhone"))]
                                [UserIdKey := Text(Member(response, "userId"))]
                                [UserTokenKey := Text(Member(response, "meetingToken"))]
      ensures code != 200 ==> fields == old(fields)
      ensures code != 200 && loginType == LoginTypeByToken ==>
        config == old(config)[UserIdKey := Text("")][UserTokenKey := Text("")]
      ensures code != 200 && loginType != LoginTypeByToken ==> config == old(config)
      ensures old(PhoneSynced()) ==> PhoneSynced()
    {
      if code == 200 {
        fields := fields.(appUserNick := Member(response, "nickName"), phonePrefix := Member(response, "countryCode"));
        SetPhoneNumber(Member(response, "mobilePhone"));
        fields := fields.(appUserOpenId := Member(response, "userOpenId"), appUserId := Member(response, "userId"));
        fields := fields.(appUserToken := Member(response, "meetingToken"));
        fields := fields.(aPaasAccountId := Member(response, "accountId"));
        fields := fields.(aPaasAccountToken := Member(response, "accountToken"));
        config := config[UserIdKey := Text(Member(response, "userId"))];
        config := config[UserTokenKey := Text(Member(response, "meetingToken"))];
        assert config[PhoneNumberKey] == Text(fields.phoneNumber);
      } else if loginType == LoginTypeByToken {
        config := config[UserIdKey := Text("")][UserTokenKey := Text("")];
        assert TextOr(config, PhoneNumberKey) == TextOr(old(config), PhoneNumberKey);
      }
    }
  }
}
