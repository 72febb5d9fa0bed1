/**
 * The three-step sheet that creates or edits a profile: the name, the birth time, then the place
 * of birth picked from a province, city and district list. The calendar conversions (`makeBirthInfo`,
 * the true solar time) are foreign and arrive as their results.
 */
module ProfileWizard {
  import opened Wrappers
  import opened Text
  import opened ProfileModels
  import opened Lists

  datatype DistrictOption = DistrictOption(name: string, longitude: real)
  datatype CityOption = CityOption(name: string, districts: seq<DistrictOption>)
  datatype ProvinceOption = ProvinceOption(name: string, cities: seq<CityOption>)

  /** `LocationSelection`: one index per level. */
  datatype Selection = Selection(provinceIndex: int, cityIndex: int, districtIndex: int)

  const DefaultSelection := Selection(0, 0, 0)

  /** `defaultLocationOptions`. */
  const DefaultOptions: seq<ProvinceOption> := [
    ProvinceOption("北京", [
      CityOption("北京市", [
        DistrictOption("东城区", 116.4167), DistrictOption("朝阳区", 116.4864), DistrictOption("海淀区", 116.3054)])]),
    ProvinceOption("上海", [
      CityOption("上海市", [
        DistrictOption("黄浦区", 121.4903), DistrictOption("浦东新区", 121.5447), DistrictOption("徐汇区", 121.4375)])]),
    ProvinceOption("广东", [
      CityOption("深圳市", [
        DistrictOption("南山区", 113.9304), DistrictOption("福田区", 114.0557), DistrictOption("罗湖区", 114.1239)]),
      CityOption("广州市", [
        DistrictOption("天河区", 113.3610), DistrictOption("越秀区", 113.2666), DistrictOption("海珠区", 113.2620)])])
  ]

  /** `currentProvinces`: the loaded list, or the built-in one when nothing was loaded. */
  function CurrentProvinces(provinces: seq<ProvinceOption>): seq<ProvinceOption> {
    if provinces == [] then DefaultOptions else provinces
  }

  /** Every level of the tree has at least one entry. */
  predicate Wellformed(options: seq<ProvinceOption>) {
    && options != []
    && (forall p :: 0 <= p < |options| ==> options[p].cities != [])
    && (forall p, c :: 0 <= p < |options| && 0 <= c < |options[p].cities| ==> options[p].cities[c].districts != [])
  }

  /** The selection names a district of the tree. */
  predicate InBounds(options: seq<ProvinceOption>, s: Selection) {
    && 0 <= s.provinceIndex < |options|
    && 0 <= s.cityIndex < |options[s.provinceIndex].cities|
    && 0 <= s.districtIndex < |options[s.provinceIndex].cities[s.cityIndex].districts|
  }

  lemma DefaultsWellformed()
    ensures Wellformed(DefaultOptions) && Wellformed(CurrentProvinces([]))
  {
    var o := DefaultOptions;
    assert o[0].cities != [] && o[1].cities != [] && o[2].cities != [];
    assert |o[0].cities| == 1 && |o[1].cities| == 1 && |o[2].cities| == 2;
  }

  /**
   * `list[safe: i] ?? list[0]`: the entry at the index, or the first entry when the index is out
   * of range. None stands for the trap of `list[0]` on an empty list.
   */
  function Fallback<T>(s: seq<T>, i: int): (r: Option<T>)
    ensures r.None? <==> s == []
    ensures r.Some? ==> r.value == if 0 <= i < |s| then s[i] else s[0]
  {
    match SafeAt(s, i)
    case Some(x) => Some(x)
    case None => if s == [] then None else Some(s[0])
  }

  /** `selectedProvince`. */
  function SelectedProvince(options: seq<ProvinceOption>, s: Selection): Option<ProvinceOption> {
    Fallback(options, s.provinceIndex)
  }

  /** `selectedCity`. */
  function SelectedCity(options: seq<ProvinceOption>, s: Selection): Option<CityOption> {
    match SelectedProvince(options, s)
    case None => None
    case Some(p) => Fallback(p.cities, s.cityIndex)
  }

  /** `selectedDistrict`. */
  function SelectedDistrict(options: seq<ProvinceOption>, s: Selection): Option<DistrictOption> {
    match SelectedCity(options, s)
    case None => None
    case Some(c) => Fallback(c.districts, s.districtIndex)
  }

  /**
   * On a well-formed tree the fallbacks never trap; within bounds they pick the selected entries,
   * and an out-of-range index at any level falls back to that level's first entry.
   */
  lemma SelectedMeaning(options: seq<ProvinceOption>, s: Selection)
    requires Wellformed(options)
    ensures var p := if 0 <= s.provinceIndex < |options| then s.provinceIndex else 0;
      var cities := options[p].cities;
      var c := if 0 <= s.cityIndex < |cities| then s.cityIndex else 0;
      var districts := cities[c].districts;
      var d := if 0 <= s.districtIndex < |districts| then s.districtIndex else 0;
      && SelectedProvince(options, s) == Some(options[p])
      && SelectedCity(options, s) == Some(cities[c])
      && SelectedDistrict(options, s) == Some(districts[d])
  {
  }

  /** The location step's `min(index, count - 1)`. */
  function Clamp(i: int, count: int): int {
    if i < count - 1 then i else count - 1
  }

  /** For a picker index, the clamp keeps an index in range and moves one past the end to the last. */
  lemma ClampMeaning(i: int, count: int)
    requires 0 <= i && count >= 1
    ensures 0 <= Clamp(i, count) < count
    ensures Clamp(i, count) == if i < count then i else count - 1
  {
  }

  /**
   * The districts the location step lists: the clamped province's clamped city's districts. None
   * stands for the trap of an index the clamp leaves negative.
   */
  function StepDistricts(options: seq<ProvinceOption>, s: Selection): Option<seq<DistrictOption>> {
    var p := Clamp(s.provinceIndex, |options|);
    if !(0 <= p < |options|) then None
    else
      var cities := options[p].cities;
      var c := Clamp(s.cityIndex, |cities|);
      if !(0 <= c < |cities|) then None else Some(cities[c].districts)
  }

  /** Within bounds the step and the sheet agree: the step lists the districts the selection is in. */
  lemma LocationViewsAgree(options: seq<ProvinceOption>, s: Selection)
    requires InBounds(options, s)
    ensures StepDistricts(options, s) == Some(options[s.provinceIndex].cities[s.cityIndex].districts)
    ensures SelectedDistrict(options, s).Some?
    ensures SelectedDistrict(options, s).value == StepDistricts(options, s).value[s.districtIndex]
  {
  }

  /** A new province resets the city and the district (the `onChange` of the province index). */
  function PickProvince(s: Selection, i: int): Selection {
    if i == s.provinceIndex then s else Selection(i, 0, 0)
  }

  /** A new city resets the district. */
  function PickCity(s: Selection, i: int): Selection {
    if i == s.cityIndex then s else s.(cityIndex := i, districtIndex := 0)
  }

  function PickDistrict(s: Selection, i: int): Selection {
    s.(districtIndex := i)
  }

  /** Picking any listed entry at any level keeps a selection in bounds, province first. */
  lemma PicksStayInBounds(options: seq<ProvinceOption>, s: Selection, i: int)
    requires Wellformed(options) && InBounds(options, s)
    ensures 0 <= i < |options| ==> InBounds(options, PickProvince(s, i))
    ensures 0 <= i < |options[s.provinceIndex].cities| ==> InBounds(options, PickCity(s, i))
    ensures 0 <= i < |options[s.provinceIndex].cities[s.cityIndex].districts| ==> InBounds(options, PickDistrict(s, i))
    ensures i != s.provinceIndex ==> PickProvince(s, i).cityIndex == 0 && PickProvince(s, i).districtIndex == 0
    ensures i != s.cityIndex ==> PickCity(s, i).districtIndex == 0
  {
  }

  /** The keys of `firstIndex(where: { $0.name == name })` at each level of the place tree. */
  function ProvinceName(p: ProvinceOption): string {
    p.name
  }

  function CityName(c: CityOption): string {
    c.name
  }

  function DistrictName(d: DistrictOption): string {
    d.name
  }

  /** The editing sheet's first selection: the saved place looked up level by level. */
  function InitialSelection(options: seq<ProvinceOption>, place: BirthLocation): Selection {
    match IndexOfKey(options, ProvinceName, place.province)
    case None => DefaultSelection
    case Some(p) =>
      match IndexOfKey(options[p].cities, CityName, place.city)
      case None => Selection(p, 0, 0)
      case Some(c) =>
        match IndexOfKey(options[p].cities[c].districts, DistrictName, place.district)
        case None => Selection(p, c, 0)
        case Some(d) => Selection(p, c, d)
  }

  /**
   * The first selection is in bounds on a well-formed tree; a level whose name is found points at
   * the first entry of that name, and a level whose name is missing, with every level below it,
   * stays at 0. When all three names are found the sheet shows the saved place.
   */
  lemma InitialSelectionMeaning(options: seq<ProvinceOption>, place: BirthLocation)
    requires Wellformed(options)
    ensures var s := InitialSelection(options, place);
      && InBounds(options, s)
      && ((forall k :: 0 <= k < |options| ==> options[k].name != place.province) ==> s == DefaultSelection)
      && (forall k :: 0 <= k < |options| && options[k].name == place.province ==>
            s.provinceIndex <= k && options[s.provinceIndex].name == place.province)
      && (s.cityIndex != 0 ==> options[s.provinceIndex].cities[s.cityIndex].name == place.city)
      && (s.districtIndex != 0 ==>
            options[s.provinceIndex].cities[s.cityIndex].districts[s.districtIndex].name == place.district)
  {
  }

  lemma InitialSelectionFound(options: seq<ProvinceOption>, place: BirthLocation, p: nat, c: nat, d: nat)
    requires p < |options| && c < |options[p].cities| && d < |options[p].cities[c].districts|
    requires IndexOfKey(options, ProvinceName, place.province) == Some(p)
    requires IndexOfKey(options[p].cities, CityName, place.city) == Some(c)
    requires IndexOfKey(options[p].cities[c].districts, DistrictName, place.district) == Some(d)
    ensures var s := InitialSelection(options, place);
      && SelectedProvince(options, s).value.name == place.province
      && SelectedCity(options, s).value.name == place.city
      && SelectedDistrict(options, s).value.name == place.district
  {
  }

  const InvalidDateError := "日期无效，请检查年月日是否正确。"
  const TrueSolarError := "无法计算真太阳时，请确认出生时间与地点。"

  /** The sheet's state. */
  datatype Sheet = Sheet(
    step: int,
    name: string,
    gender: Gender,
    birthInput: BirthInput,
    birthInfo: Option<BirthInfo>,
    errorMessage: Option<string>,
    selection: Selection)

  /** `init`: an edit starts from the saved profile, anything else from blank fields and `today`. */
  function InitialSheet(provinces: seq<ProvinceOption>, existing: Option<UserProfile>, today: BirthInput): Sheet {
    match existing
    case None => Sheet(0, "", Female, today, None, None, DefaultSelection)
    case Some(p) =>
      var solar := p.birthInfo.solar;
      var prefill := BirthInput(Solar, solar.year.GetOr(2000), solar.month.GetOr(1), solar.day.GetOr(1),
                                solar.hour.GetOr(0), false);
      Sheet(0, p.name, p.gender, prefill, Some(p.birthInfo), None, InitialSelection(CurrentProvinces(provinces), p.location))
  }

  /** `canProceed`: the first step needs a name that is not blank; the later ones always proceed. */
  predicate CanProceed(s: Sheet) {
    s.step != 0 || TrimWhite(s.name) != []
  }

  /** Only the first step can be held back, and only by a name made of white space alone. */
  lemma CanProceedMeaning(s: Sheet)
    ensures CanProceed(s) <==> s.step != 0 || !AllWhite(s.name)
  {
    TrimWhiteEmpty(s.name);
  }

  /** What the primary button does. */
  datatype Outcome = Moved | Saved(profile: UserProfile) | Trapped

  /**
   * `handlePrimaryAction` on the sheet's state. `made` is `makeBirthInfo`'s result for the current
   * input, and `trueSolar` the true solar time of the stored birth info at the selected district.
   */
  function PrimaryState(s: Sheet, made: Option<BirthInfo>, trueSolar: Option<DateComponents>): Sheet {
    if s.step == 0 then s.(errorMessage := None, step := 1)
    else if s.step == 1 then
      match Validate(s.birthInput)
      case Some(e) => s.(errorMessage := Some(e))
      case None =>
        if made.None? then s.(errorMessage := Some(InvalidDateError))
        else s.(birthInfo := made, errorMessage := None, step := 2)
    else if s.birthInfo.None? || trueSolar.None? then s.(errorMessage := Some(TrueSolarError))
    else s
  }

  /**
   * The profile the last step hands over: the edited profile's id and creation time kept, or a new
   * id and the current time; the given (trimmed) name; the selected place and its longitude.
   * Trapped stands for a fallback that traps on an empty level.
   */
  function Handover(s: Sheet, options: seq<ProvinceOption>, existing: Option<UserProfile>, trimmedName: string,
                    birth: BirthInfo, trueSolar: DateComponents, newId: nat, now: int): Outcome
  {
    match (SelectedProvince(options, s.selection), SelectedCity(options, s.selection), SelectedDistrict(options, s.selection))
    case (Some(p), Some(c), Some(d)) =>
      Saved(UserProfile(
        if existing.Some? then existing.value.id else newId,
        trimmedName,
        s.gender,
        birth,
        BirthLocation(p.name, c.name, d.name, d.longitude),
        trueSolar,
        if existing.Some? then existing.value.createdAt else now))
    case _ => Trapped
  }

  /** What `handlePrimaryAction` hands to `onCreate`: only the last step with both inputs saves. */
  function PrimaryOutcome(s: Sheet, options: seq<ProvinceOption>, existing: Option<UserProfile>,
                          trueSolar: Option<DateComponents>, newId: nat, now: int): Outcome
  {
    if s.step == 0 || s.step == 1 || s.birthInfo.None? || trueSolar.None? then Moved
    else Handover(s, options, existing, TrimWhite(s.name), s.birthInfo.value, trueSolar.value, newId, now)
  }

  /** "上一步": shown only after the first step; one step back with the error cleared. */
  function BackState(s: Sheet): Sheet {
    if s.step > 0 then s.(step := s.step - 1, errorMessage := None) else s
  }

  /**
   * The step machine: the first step always moves on; the birth step moves on exactly when the
   * input validates and converts, and otherwise stays with an error; the last step never moves.
   * Every step stays between 0 and 2.
   */
  lemma PrimaryMeaning(s: Sheet, made: Option<BirthInfo>, trueSolar: Option<DateComponents>)
    requires 0 <= s.step <= 2
    ensures var t := PrimaryState(s, made, trueSolar);
      && 0 <= t.step <= 2
      && (s.step == 0 ==> t.step == 1 && t.errorMessage.None?)
      && (s.step == 1 ==> (t.step == 2 <==> Validate(s.birthInput).None? && made.Some?))
      && (s.step == 1 && t.step == 2 ==> t.birthInfo == made && t.errorMessage.None?)
      && (s.step == 1 && t.step != 2 ==> t.step == 1 && t.errorMessage.Some?)
      && (s.step == 2 ==> t.step == 2)
      && t.name == s.name && t.selection == s.selection && t.gender == s.gender
  {
  }

  /**
   * An edit keeps the profile's id and creation time and stores the trimmed name; the saved place
   * is the selected one.
   */
  lemma SavedProfileMeaning(s: Sheet, options: seq<ProvinceOption>, existing: Option<UserProfile>,
                            trueSolar: Option<DateComponents>, newId: nat, now: int)
    requires Wellformed(options) && s.step == 2 && s.birthInfo.Some? && trueSolar.Some?
    ensures var o := PrimaryOutcome(s, options, existing, trueSolar, newId, now);
      && o.Saved?
      && o.profile.id == (if existing.Some? then existing.value.id else newId)
      && o.profile.createdAt == (if existing.Some? then existing.value.createdAt else now)
      && o.profile.name == TrimWhite(s.name)
      && o.profile.birthInfo == s.birthInfo.value && o.profile.trueSolar == trueSolar.value
      && Some(o.profile.location.district) == (match SelectedDistrict(options, s.selection) case Some(d) => Some(d.name) case None => None)
  {
    SelectedMeaning(options, s.selection);
  }

  /** Back undoes a forward move of the step, and is absent on the first step. */
  lemma BackMeaning(s: Sheet, made: Option<BirthInfo>, trueSolar: Option<DateComponents>)
    ensures s.step <= 0 ==> BackState(s) == s
    ensures s.step > 0 ==> BackState(s).step == s.step - 1 && BackState(s).errorMessage.None?
    ensures 0 <= s.step <= 1 && PrimaryState(s, made, trueSolar).step == s.step + 1 ==>
      BackState(PrimaryState(s, made, trueSolar)).step == s.step
  {
  }

  /** `CreateProfileSheet`. */
  class ProfileSheet {
    const provinces: seq<ProvinceOption>
    const existing: Option<UserProfile>
    var step: int
    var name: string
    var gender: Gender
    var birthInput: BirthInput
    var birthInfo: Option<BirthInfo>
    var errorMessage: Option<string>
    var selection: Selection

    function Snapshot(): Sheet
      reads this
    {
      Sheet(step, name, gender, birthInput, birthInfo, errorMessage, selection)
    }

    constructor(provinces: seq<ProvinceOption>, existing: Option<UserProfile>, today: BirthInput)
      ensures this.provinces == provinces && this.existing == existing
      ensures Snapshot() == InitialSheet(provinces, existing, today)
    {
      this.provinces := provinces;
      this.existing := existing;
      var initial := InitialSheet(provinces, existing, today);
      step, name, gender, birthInput := initial.step, initial.name, initial.gender, initial.birthInput;
      birthInfo, errorMessage, selection := initial.birthInfo, initial.errorMessage, initial.selection;
    }

    method EditName(s: string)
      modifies this
      ensures Snapshot() == old(Snapshot()).(name := s)
    {
      name := s;
    }

    method EditBirthInput(b: BirthInput)
      modifies this
      ensures Snapshot() == old(Snapshot()).(birthInput := b)
    {
      birthInput := b;
    }

    method SelectProvince(i: int)
      modifies this
      ensures Snapshot() == old(Snapshot()).(selection := PickProvince(old(selection), i))
    {
      if i != selection.provinceIndex {
        selection := Selection(i, 0, 0);
      }
    }

    method SelectCity(i: int)
      modifies this
      ensures Snapshot() == old(Snapshot()).(selection := PickCity(old(selection), i))
    {
      if i != selection.cityIndex {
        selection := selection.(cityIndex := i, districtIndex := 0);
      }
    }

    method SelectDistrict(i: int)
      modifies this
      ensures Snapshot() == old(Snapshot()).(selection := PickDistrict(old(selection), i))
    {
      selection := selection.(districtIndex := i);
    }

    method Back()
      modifies this
      ensures Snapshot() == BackState(old(Snapshot()))
    {
      if step > 0 {
        step := step - 1;
        errorMessage := None;
      }
    }

    /** `handlePrimaryAction`; the outcome is what goes to `onCreate`. */
    method PrimaryAction(made: Option<BirthInfo>, trueSolar: Option<DateComponents>, newId: nat, now: int)
      returns (outcome: Outcome)
      modifies this
      ensures Snapshot() == PrimaryState(old(Snapshot()), made, trueSolar)
      ensures outcome == PrimaryOutcome(old(Snapshot()), CurrentProvinces(provinces), existing, trueSolar, newId, now)
    {
      if step == 0 {
        errorMessage := None;
        step := 1;
        return Moved;
      }
      if step == 1 {
        var validation := Validate(birthInput);
        if validation.Some? {
          errorMessage := validation;
          return Moved;
        }
        if made.None? {
          errorMessage := Some(InvalidDateError);
          return Moved;
        }
        birthInfo := made;
        errorMessage := None;
        step := 2;
        return Moved;
      }
      if birthInfo.None? || trueSolar.None? {
        errorMessage := Some(TrueSolarError);
        return Moved;
      }
      var trimmed := TrimWhite(name);
      outcome := Save(trimmed, birthInfo.value, trueSolar.value, newId, now);
    }

    /** The last step's hand-over, with the name already trimmed. */
    method Save(trimmed: string, birth: BirthInfo, trueSolar: DateComponents, newId: nat, now: int)
      returns (outcome: Outcome)
      ensures outcome == Handover(Snapshot(), CurrentProvinces(provinces), existing, trimmed, birth, trueSolar, newId, now)
    {
      var options := CurrentProvinces(provinces);
      var p := SelectedProvince(options, selection);
      var c := SelectedCity(options, selection);
      var d := SelectedDistrict(options, selection);
      if p.None? || c.None? || d.None? {
        return Trapped;
      }
      var id := if existing.Some? then existing.value.id else newId;
      var createdAt := if existing.Some? then existing.value.createdAt else now;
      var place := BirthLocation(p.value.name, c.value.name, d.value.name, d.value.longitude);
      outcome := Saved(UserProfile(id, trimmed, gender, birth, place, trueSolar, createdAt));
    }
  }
}
