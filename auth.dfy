/**
 * The local side of sign-in: the saved accounts with their avatars, the signed-in session, and
 * the two pieces of `BackendProfile` mapping that are plain logic, the birth place and the gender.
 * The network calls, the stored defaults, the avatar files and Face ID are left out; what they
 * would return is a parameter.
 */
module Auth {
  import opened Wrappers
  import opened Text
  import opened Lists
  import opened ProfileModels

  type Bytes = seq<bv8>

  /** A saved account: the server's id, phone and nickname, and a locally chosen avatar. */
  datatype LocalAccount = LocalAccount(
    id: string,
    phone: string,
    nickname: string,
    avatarData: Option<Bytes>,
    avatarPath: Option<string>)

  /** Some saved account has the id. */
  predicate HasAccount(accounts: seq<LocalAccount>, id: string) {
    exists k :: 0 <= k < |accounts| && accounts[k].id == id
  }

  /** No two saved accounts share an id. */
  predicate UniqueIds(accounts: seq<LocalAccount>) {
    forall i, j :: 0 <= i < j < |accounts| ==> accounts[i].id != accounts[j].id
  }

  function AccountKey(a: LocalAccount): string {
    a.id
  }

  /** `accounts.firstIndex(where: { $0.id == id })`. */
  function AccountIndex(accounts: seq<LocalAccount>, id: string): Option<nat> {
    IndexOfKey(accounts, AccountKey, id)
  }

  /**
   * `upsertAccount`'s list: a known id is replaced in place by the new phone and nickname with
   * the old avatar; a new one goes to the front.
   */
  function Upserted(accounts: seq<LocalAccount>, account: LocalAccount): seq<LocalAccount> {
    match AccountIndex(accounts, account.id)
    case Some(i) =>
      accounts[i := LocalAccount(account.id, account.phone, account.nickname, accounts[i].avatarData, accounts[i].avatarPath)]
    case None => [account] + accounts
  }

  /** `removeAll { $0.id == id }`. */
  function WithoutAccount(accounts: seq<LocalAccount>, id: string): seq<LocalAccount> {
    WithoutKey(accounts, AccountKey, id)
  }

  /** The avatar file path replaced and the inline data dropped. */
  function WithAvatar(a: LocalAccount, path: Option<string>): LocalAccount {
    a.(avatarPath := path, avatarData := None)
  }

  /**
   * Upserting a known id changes only that account's phone and nickname, keeping its avatar; a
   * new id is inserted at the front of the list as given.
   */
  lemma UpsertEffect(accounts: seq<LocalAccount>, account: LocalAccount)
    ensures var r := Upserted(accounts, account);
      && HasAccount(r, account.id)
      && (!HasAccount(accounts, account.id) ==> r == [account] + accounts)
      && (HasAccount(accounts, account.id) ==>
            && |r| == |accounts|
            && exists i :: 0 <= i < |accounts| && accounts[i].id == account.id
                 && r[i].phone == account.phone && r[i].nickname == account.nickname
                 && r[i].avatarData == accounts[i].avatarData && r[i].avatarPath == accounts[i].avatarPath
                 && forall k :: 0 <= k < |r| && k != i ==> r[k] == accounts[k])
  {
    var r := Upserted(accounts, account);
    match AccountIndex(accounts, account.id)
    case Some(i) =>
      assert r[i].id == account.id;
    case None =>
      assert r[0] == account;
  }

  /** Upserting keeps the ids unique. */
  lemma UpsertKeepsUnique(accounts: seq<LocalAccount>, account: LocalAccount)
    requires UniqueIds(accounts)
    ensures UniqueIds(Upserted(accounts, account))
  {
    var r := Upserted(accounts, account);
    match AccountIndex(accounts, account.id)
    case Some(i) =>
      assert forall k :: 0 <= k < |r| ==> r[k].id == accounts[k].id;
    case None =>
      forall i, j | 0 <= i < j < |r| ensures r[i].id != r[j].id {
        assert r[j] == accounts[j - 1];
        if i > 0 {
          assert r[i] == accounts[i - 1];
        }
      }
  }

  // ---------------------------------------------------------------------------------------------
  // The session

  /** `AuthViewModel`'s session fields and saved accounts. */
  class Session {
    var isAuthenticated: bool
    var userId: Option<string>
    var displayName: string
    var hasArchiveRecord: Option<bool>
    var needsAccountSetup: bool
    var debugSMSCode: Option<string>
    var accounts: seq<LocalAccount>

    /**
     * `init`: the saved accounts loaded; a stored user id that is not empty is restored, with the
     * nickname of its account when it is saved. The session is not signed in.
     */
    constructor(saved: seq<LocalAccount>, storedUserId: string)
      ensures accounts == saved && !isAuthenticated && hasArchiveRecord == None && !needsAccountSetup
      ensures debugSMSCode == None
      ensures userId == if storedUserId == [] then None else Some(storedUserId)
      ensures displayName == if storedUserId != [] && AccountIndex(saved, storedUserId).Some?
        then saved[AccountIndex(saved, storedUserId).value].nickname else ""
    {
      isAuthenticated, userId, displayName := false, None, "";
      hasArchiveRecord, needsAccountSetup, debugSMSCode := None, false, None;
      accounts := saved;
      if storedUserId != [] {
        userId := Some(storedUserId);
        var i := AccountIndex(saved, storedUserId);
        if i.Some? {
          displayName := saved[i.value].nickname;
        }
      }
    }

    /** `selectAccount`: signed in as the account. */
    method SelectAccount(account: LocalAccount)
      modifies this
      ensures isAuthenticated && userId == Some(account.id) && displayName == account.nickname && !needsAccountSetup
      ensures accounts == old(accounts) && hasArchiveRecord == old(hasArchiveRecord) && debugSMSCode == old(debugSMSCode)
    {
      isAuthenticated, userId, displayName, needsAccountSetup := true, Some(account.id), account.nickname, false;
    }

    /** `applyAuthenticatedUser`: signed in as the server's user, whose account is upserted. */
    method ApplyAuthenticatedUser(id: string, phone: string, nickname: string)
      modifies this
      ensures isAuthenticated && userId == Some(id) && displayName == nickname && !needsAccountSetup
      ensures accounts == Upserted(old(accounts), LocalAccount(id, phone, nickname, None, None))
      ensures hasArchiveRecord == old(hasArchiveRecord) && debugSMSCode == old(debugSMSCode)
      ensures UniqueIds(old(accounts)) ==> UniqueIds(accounts)
    {
      isAuthenticated, userId, displayName, needsAccountSetup := true, Some(id), nickname, false;
      UpsertAccount(LocalAccount(id, phone, nickname, None, None));
    }

    /** `upsertAccount`. */
    method UpsertAccount(account: LocalAccount)
      modifies this
      ensures accounts == Upserted(old(accounts), account)
      ensures UniqueIds(old(accounts)) ==> UniqueIds(accounts)
      ensures isAuthenticated == old(isAuthenticated) && userId == old(userId) && displayName == old(displayName)
      ensures hasArchiveRecord == old(hasArchiveRecord) && needsAccountSetup == old(needsAccountSetup)
      ensures debugSMSCode == old(debugSMSCode)
    {
      if UniqueIds(accounts) {
        UpsertKeepsUnique(accounts, account);
      }
      var updated := accounts;
      var index := AccountIndex(updated, account.id);
      if index.Some? {
        var i := index.value;
        updated := updated[i := LocalAccount(account.id, account.phone, account.nickname,
                                             updated[i].avatarData, updated[i].avatarPath)];
      } else {
        updated := [account] + updated;
      }
      accounts := updated;
    }

    /**
     * `deleteAccount`: every account with the id removed; when it is the signed-in one, the session
     * is cleared. The avatar file is left out.
     */
    method DeleteAccount(id: string)
      modifies this
      ensures accounts == WithoutAccount(old(accounts), id)
      ensures old(userId) == Some(id) ==>
        !isAuthenticated && userId == None && displayName == "" && hasArchiveRecord == None && !needsAccountSetup
      ensures old(userId) != Some(id) ==>
        isAuthenticated == old(isAuthenticated) && userId == old(userId) && displayName == old(displayName)
        && hasArchiveRecord == old(hasArchiveRecord) && needsAccountSetup == old(needsAccountSetup)
      ensures debugSMSCode == old(debugSMSCode)
    {
      accounts := WithoutAccount(accounts, id);
      if userId == Some(id) {
        isAuthenticated, userId, displayName := false, None, "";
        hasArchiveRecord, needsAccountSetup := None, false;
      }
    }

    /**
     * `updateAvatar(for:data:)`: nothing for an unknown id; otherwise new data is stored at the
     * path the file write returned (`savedPath`) and both avatar fields are cleared when the data
     * is nil. The signed-in account's nickname is shown again.
     */
    method UpdateAvatar(id: string, data: Option<Bytes>, savedPath: Option<string>)
      modifies this
      ensures AccountIndex(old(accounts), id).None? ==> accounts == old(accounts) && displayName == old(displayName)
      ensures AccountIndex(old(accounts), id).Some? ==>
        var i := AccountIndex(old(accounts), id).value;
        && accounts == old(accounts)[i := WithAvatar(old(accounts)[i], if data.Some? then savedPath else None)]
        && displayName == if userId == Some(id) then old(accounts)[i].nickname else old(displayName)
      ensures isAuthenticated == old(isAuthenticated) && userId == old(userId) && hasArchiveRecord == old(hasArchiveRecord)
      ensures needsAccountSetup == old(needsAccountSetup) && debugSMSCode == old(debugSMSCode)
    {
      var updated := accounts;
      var index := AccountIndex(updated, id);
      if index.None? {
        return;
      }
      var i := index.value;
      if data.Some? {
        updated := updated[i := updated[i].(avatarPath := savedPath, avatarData := None)];
      } else {
        updated := updated[i := updated[i].(avatarPath := None, avatarData := None)];
      }
      accounts := updated;
      if userId == Some(id) {
        displayName := updated[i].nickname;
      }
    }

    /** `signOut`: every session field back to empty; the saved accounts stay. */
    method SignOut()
      modifies this
      ensures !isAuthenticated && userId == None && displayName == "" && hasArchiveRecord == None
      ensures !needsAccountSetup && debugSMSCode == None && accounts == old(accounts)
    {
      isAuthenticated, userId, displayName := false, None, "";
      hasArchiveRecord, needsAccountSetup, debugSMSCode := None, false, None;
    }
  }

  // ---------------------------------------------------------------------------------------------
  // Mapping a backend profile

  /** The location fields of a backend profile record. */
  datatype LocationRecord = LocationRecord(
    location: Option<string>,
    locationProvince: Option<string>,
    locationCity: Option<string>,
    locationDistrict: Option<string>,
    locationDetail: Option<string>,
    longitude: Option<real>,
    latitude: Option<real>,
    timezoneId: Option<string>,
    utcOffsetMinutes: Option<int>,
    placeSource: Option<string>,
    locationAdcode: Option<string>)

  /** The birth place `parseBirthLocation` builds. */
  datatype ParsedLocation = ParsedLocation(
    province: string,
    city: string,
    district: string,
    detailAddress: string,
    latitude: real,
    longitude: real,
    timezoneId: string,
    utcOffsetMinutes: Option<int>,
    placeSource: string,
    adcode: string)

  const DefaultLongitude: real := 120.0
  const DefaultTimezone := "Asia/Shanghai"
  const DefaultPlaceSource := "manual"
  const UnknownProvince := "未知"

  /** The characters a free-text location is split on. */
  predicate IsLocationSep(c: char) {
    c == ' ' || c == '/' || c == '-' || c == '·'
  }

  /** An optional text, empty when missing, trimmed of white space. */
  function Field(s: Option<string>): string {
    TrimWhite(s.GetOr(""))
  }

  /** An optional text, or the default when it is missing or empty. */
  function OrDefault(s: Option<string>, default: string): string {
    if s.GetOr("") == [] then default else s.value
  }

  /** The place names of a birth location. */
  datatype PlaceNames = PlaceNames(province: string, city: string, district: string, detail: string)

  /** The structured location fields, trimmed. */
  function StructuredNames(r: LocationRecord): PlaceNames {
    PlaceNames(Field(r.locationProvince), Field(r.locationCity), Field(r.locationDistrict), Field(r.locationDetail))
  }

  /** No structured field has text. */
  predicate Unstructured(r: LocationRecord) {
    StructuredNames(r) == PlaceNames("", "", "", "")
  }

  /**
   * The names read from the free-text location: its pieces between separators, the first three
   * being province, city and district, and "未知" as the province when there are none.
   */
  function FreeTextNames(text: string): PlaceNames {
    NamesOfPieces(Pieces(TrimWhite(text), IsLocationSep))
  }

  function NamesOfPieces(parts: seq<string>): PlaceNames {
    if parts == [] then PlaceNames(UnknownProvince, "", "", "")
    else PlaceNames(SafeAt(parts, 0).GetOr(""), SafeAt(parts, 1).GetOr(""), SafeAt(parts, 2).GetOr(""), "")
  }

  /**
   * `parseBirthLocation`: the structured names when any is not blank, else those of the free
   * text; the coordinates, time zone and source with their defaults.
   */
  function ParseBirthLocation(r: LocationRecord): ParsedLocation {
    var names := if Unstructured(r) then FreeTextNames(r.location.GetOr("")) else StructuredNames(r);
    ParsedLocation(names.province, names.city, names.district, names.detail,
                   r.latitude.GetOr(0.0), r.longitude.GetOr(DefaultLongitude),
                   OrDefault(r.timezoneId, DefaultTimezone), r.utcOffsetMinutes,
                   OrDefault(r.placeSource, DefaultPlaceSource), r.locationAdcode.GetOr(""))
  }

  /**
   * The coordinates, time zone and source fall back to 120°E, latitude 0, Asia/Shanghai and
   * "manual"; structured fields, when any has text, are taken trimmed as they are.
   */
  lemma ParseDefaults(r: LocationRecord)
    ensures var p := ParseBirthLocation(r);
      && p.longitude == (if r.longitude.None? then DefaultLongitude else r.longitude.value)
      && p.latitude == (if r.latitude.None? then 0.0 else r.latitude.value)
      && p.timezoneId != [] && p.placeSource != []
      && (r.timezoneId.None? || r.timezoneId == Some("") ==> p.timezoneId == DefaultTimezone)
      && (r.placeSource.None? || r.placeSource == Some("") ==> p.placeSource == DefaultPlaceSource)
      && p.utcOffsetMinutes == r.utcOffsetMinutes
      && (!Unstructured(r) ==>
            p.province == Field(r.locationProvince) && p.city == Field(r.locationCity)
            && p.district == Field(r.locationDistrict) && p.detailAddress == Field(r.locationDetail))
      && (Unstructured(r) ==> PlaceNames(p.province, p.city, p.district, p.detailAddress) == FreeTextNames(r.location.GetOr("")))
  {
  }

  /**
   * The free-text names: no part holds a separator, the detail is empty, and the province is
   * "未知" exactly when the text has no pieces, else the first piece.
   */
  lemma FreeTextMeaning(text: string)
    ensures var n := FreeTextNames(text);
      var parts := Pieces(TrimWhite(text), IsLocationSep);
      && n.detail == []
      && (parts == [] ==> n == PlaceNames(UnknownProvince, "", "", ""))
      && (parts != [] ==>
            && n.province == parts[0] && n.province != []
            && n.city == (if |parts| > 1 then parts[1] else "")
            && n.district == (if |parts| > 2 then parts[2] else "")
            && Avoids([n.province, n.city, n.district], IsLocationSep))
  {
    NamesOfPiecesMeaning(Pieces(TrimWhite(text), IsLocationSep));
  }

  lemma NamesOfPiecesMeaning(parts: seq<string>)
    requires forall k :: 0 <= k < |parts| ==> parts[k] != [] && forall i :: 0 <= i < |parts[k]| ==> !IsLocationSep(parts[k][i])
    ensures var n := NamesOfPieces(parts);
      && n.detail == []
      && (parts == [] ==> n == PlaceNames(UnknownProvince, "", "", ""))
      && (parts != [] ==>
            && n.province == parts[0] && n.province != []
            && n.city == (if |parts| > 1 then parts[1] else "")
            && n.district == (if |parts| > 2 then parts[2] else "")
            && Avoids([n.province, n.city, n.district], IsLocationSep))
  {
  }

  /**
   * A free-text location written as province, city and district separated by single spaces is read
   * back into those three names.
   */
  lemma FreeTextJoined(province: string, city: string, district: string)
    requires province != [] && city != [] && district != []
    requires Avoids([province, city, district], IsLocationSep)
    requires !IsWhite(province[0]) && !IsWhite(district[|district| - 1])
    ensures FreeTextNames(province + " " + city + " " + district) == PlaceNames(province, city, district, "")
  {
    var parts := [province, city, district];
    var text := province + " " + city + " " + district;
    JoinThree(province, city, district);
    assert text[0] == province[0] && text[|text| - 1] == district[|district| - 1];
    TrimByFixed(text, IsWhite);
    SplitJoin(parts, ' ', IsLocationSep);
    NonEmptyThree(province, city, district);
  }

  /** Three parts joined by spaces. */
  lemma JoinThree(a: string, b: string, c: string)
    ensures Join([a, b, c], " ") == a + " " + b + " " + c
  {
    assert [a, b, c][1..] == [b, c] && [b, c][1..] == [c];
    assert Join([c], " ") == c;
    assert Join([b, c], " ") == b + " " + c;
  }

  /** Three non-empty parts are all kept. */
  lemma NonEmptyThree(a: string, b: string, c: string)
    requires a != [] && b != [] && c != []
    ensures NonEmpty([a, b, c]) == [a, b, c]
  {
    assert [a, b, c][1..] == [b, c] && [b, c][1..] == [c] && [c][1..] == [];
    assert NonEmpty([c]) == [c];
    assert NonEmpty([b, c]) == [b, c];
  }

  /** `mapGender`: the gender with that raw value, else `.other`. */
  function MapGender(value: Option<string>): (g: Gender)
    ensures value.Some? && GenderFromRaw(value.value).Some? ==> GenderRaw(g) == value.value
    ensures value.None? || GenderFromRaw(value.value).None? ==> g == Other
  {
    if value.Some? && GenderFromRaw(value.value).Some? then GenderFromRaw(value.value).value else Other
  }

  /** Every gender survives being sent as its raw value and mapped back. */
  lemma MapGenderRoundTrip(g: Gender)
    ensures MapGender(Some(GenderRaw(g))) == g
  {
    GenderRawRoundTrip(g);
  }
}
