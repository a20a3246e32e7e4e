/**
 * The meeting messages exchanged between the host process and the meeting
 * UI process, and their `OnPack`/`OnParse` pairs over the jsoncpp tree.
 *
 * Packing starts from a null root. Parsing writes into an existing object
 * (`prior`): scalar members are overwritten, `roleTypes` lists are cleared
 * first, but `controls`, menu lists, user lists and the other `push_back`
 * targets are appended to, and `roleBinds` maps are merged into.
 *
 * For every object the codec writes, `...Layout` predicates state which
 * member holds which field; `Pack...Layout` lemmas show that packing
 * produces that layout, `Read...` lemmas show that parsing any tree in the
 * layout recovers the fields, and the round trips chain the two.
 */
module MeetingProtocol {
  import opened Json
  import opened Wrappers

  // ---------------------------------------------------------------- records

  /** `NEMeetingMenuItem`. */
  datatype MenuItem = MenuItem(
    itemId: int, itemGuid: string, itemTitle: string, itemImage: string,
    itemTitle2: string, itemImage2: string, itemVisibility: int, itemCheckedIndex: int)

  /** `NEMeetingRoleConfiguration`: a role, how many may hold it, and who. */
  datatype RoleConfiguration = RoleConfiguration(roleType: int, maxCount: int, userList: seq<string>)

  /** `NEMeetingControl`; `controlType` is the member the source calls `type`. */
  datatype MeetingControl = MeetingControl(attendeeOff: int, controlType: int)

  datatype MeetingScene = MeetingScene(code: string, roleTypes: seq<RoleConfiguration>)

  datatype ChatroomConfig = ChatroomConfig(enableFileMessage: bool, enableImageMessage: bool)

  // ------------------------------------------------------------ menu items

  /** The eight `item_*` members of a menu item object. */
  function PackMenuItem(m: MenuItem): Value
  {
    Obj(map[item_guid := Str(m.itemGuid), item_id := Int(m.itemId),
            item_title := Str(m.itemTitle), item_image := Str(m.itemImage),
            item_title2 := Str(m.itemTitle2), item_image2 := Str(m.itemImage2),
            item_visibility := Int(m.itemVisibility), item_checkedIndex := Int(m.itemCheckedIndex)])
  }

  function ParseMenuItem(v: Value): MenuItem
  {
    MenuItem(
      AsInt(Member(v, item_id)), AsString(Member(v, item_guid)),
      AsString(Member(v, item_title)), AsString(Member(v, item_image)),
      AsString(Member(v, item_title2)), AsString(Member(v, item_image2)),
      AsInt(Member(v, item_visibility)), AsInt(Member(v, item_checkedIndex)))
  }

  predicate MenuItemLayout(v: Value, m: MenuItem)
  {
    && Member(v, item_guid) == Str(m.itemGuid)
    && Member(v, item_id) == Int(m.itemId)
    && Member(v, item_title) == Str(m.itemTitle)
    && Member(v, item_image) == Str(m.itemImage)
    && Member(v, item_title2) == Str(m.itemTitle2)
    && Member(v, item_image2) == Str(m.itemImage2)
    && Member(v, item_visibility) == Int(m.itemVisibility)
    && Member(v, item_checkedIndex) == Int(m.itemCheckedIndex)
  }

  lemma PackMenuItemLayout(m: MenuItem)
    ensures MenuItemLayout(PackMenuItem(m), m)
  {
  }

  lemma ReadMenuItem(v: Value, m: MenuItem)
    requires MenuItemLayout(v, m)
    ensures ParseMenuItem(v) == m
  {
  }

  /** `MeetingMenuItemClickedPack` and every menu list element: all eight fields come back. */
  lemma MenuItemRoundTrip(m: MenuItem)
    ensures ParseMenuItem(PackMenuItem(m)) == m
  {
    PackMenuItemLayout(m);
    ReadMenuItem(PackMenuItem(m), m);
  }

  /** A menu list: one `append` per item, so an empty list packs to null. */
  function PackMenuItems(items: seq<MenuItem>): Value
  {
    Appended(MapSeq(items, PackMenuItem))
  }

  /** The items a range-for over a menu list reads, in order. */
  function ParseMenuItems(v: Value): seq<MenuItem>
  {
    MapSeq(Elements(v), ParseMenuItem)
  }

  lemma {:induction false} MenuItemsRoundTrip(items: seq<MenuItem>)
    ensures ParseMenuItems(PackMenuItems(items)) == items
  {
    forall m | m in items ensures ParseMenuItem(PackMenuItem(m)) == m {
      MenuItemRoundTrip(m);
    }
    MapSeqInverse(items, PackMenuItem, ParseMenuItem);
  }

  // ------------------------------------------------- role configurations

  function PackUser(u: string): Value
  {
    Obj(map[userId := Str(u)])
  }

  function ParseUser(v: Value): string
  {
    AsString(Member(v, userId))
  }

  /**
   * One `roleTypes` element. `userList` is always assigned, so an empty
   * user list is present as null.
   */
  function PackRoleConfiguration(c: RoleConfiguration): Value
  {
    Obj(map[roleType := Int(c.roleType), maxCount := Int(c.maxCount),
            userList := Appended(MapSeq(c.userList, PackUser))])
  }

  /**
   * `roleType` is read with `asUInt`; `maxCount` with `asUInt` in the
   * pre-meeting request and with `asInt` everywhere else.
   */
  function ParseRoleConfiguration(v: Value, unsignedMaxCount: bool): RoleConfiguration
  {
    RoleConfiguration(
      AsUInt(Member(v, roleType)),
      if unsignedMaxCount then AsUInt(Member(v, maxCount)) else AsInt(Member(v, maxCount)),
      MapSeq(Elements(Member(v, userList)), ParseUser))
  }

  /** The fields an `asUInt` read can bring back: the ones that are not negative. */
  predicate UnsignedFits(c: RoleConfiguration, unsignedMaxCount: bool)
  {
    c.roleType >= 0 && (unsignedMaxCount ==> c.maxCount >= 0)
  }

  lemma RoleConfigurationRoundTrip(c: RoleConfiguration, unsignedMaxCount: bool)
    requires UnsignedFits(c, unsignedMaxCount)
    ensures ParseRoleConfiguration(PackRoleConfiguration(c), unsignedMaxCount) == c
  {
    var v := PackRoleConfiguration(c);
    assert Member(v, roleType) == Int(c.roleType);
    assert Member(v, maxCount) == Int(c.maxCount);
    assert Member(v, userList) == Appended(MapSeq(c.userList, PackUser));
    forall u | u in c.userList ensures ParseUser(PackUser(u)) == u {
      assert Member(PackUser(u), userId) == Str(u);
    }
    MapSeqInverse(c.userList, PackUser, ParseUser);
  }

  /**
   * A negative `maxCount` does not survive the pre-meeting request: `asUInt`
   * cannot return it.
   */
  lemma UnsignedMaxCountLoses(c: RoleConfiguration)
    requires c.maxCount < 0
    ensures ParseRoleConfiguration(PackRoleConfiguration(c), true) != c
  {
    var v := PackRoleConfiguration(c);
    assert Member(v, maxCount) == Int(c.maxCount);
  }

  function PackRoleConfigurations(cs: seq<RoleConfiguration>): Value
  {
    Appended(MapSeq(cs, PackRoleConfiguration))
  }

  function ParseRoleConfigurations(v: Value, unsignedMaxCount: bool): seq<RoleConfiguration>
  {
    MapSeq(Elements(v), (e: Value) => ParseRoleConfiguration(e, unsignedMaxCount))
  }

  predicate AllUnsignedFit(cs: seq<RoleConfiguration>, unsignedMaxCount: bool)
  {
    forall c | c in cs :: UnsignedFits(c, unsignedMaxCount)
  }

  lemma {:induction false} RoleConfigurationsRoundTrip(cs: seq<RoleConfiguration>, unsignedMaxCount: bool)
    requires AllUnsignedFit(cs, unsignedMaxCount)
    ensures ParseRoleConfigurations(PackRoleConfigurations(cs), unsignedMaxCount) == cs
  {
    var read := (e: Value) => ParseRoleConfiguration(e, unsignedMaxCount);
    forall c | c in cs ensures read(PackRoleConfiguration(c)) == c {
      RoleConfigurationRoundTrip(c, unsignedMaxCount);
    }
    MapSeqInverse(cs, PackRoleConfiguration, read);
  }

  // ------------------------------------------------------------- controls

  function PackControl(c: MeetingControl): Value
  {
    Obj(map[attendeeOff := Int(c.attendeeOff), type_ := Int(c.controlType)])
  }

  function ParseControl(v: Value): MeetingControl
  {
    MeetingControl(AsInt(Member(v, attendeeOff)), AsInt(Member(v, type_)))
  }

  function PackControls(cs: seq<MeetingControl>): Value
  {
    Appended(MapSeq(cs, PackControl))
  }

  function ParseControls(v: Value): seq<MeetingControl>
  {
    MapSeq(Elements(v), ParseControl)
  }

  lemma {:induction false} ControlsRoundTrip(cs: seq<MeetingControl>)
    ensures ParseControls(PackControls(cs)) == cs
  {
    forall c | c in cs ensures ParseControl(PackControl(c)) == c {
      var v := PackControl(c);
      assert Member(v, attendeeOff) == Int(c.attendeeOff);
      assert Member(v, type_) == Int(c.controlType);
    }
    MapSeqInverse(cs, PackControl, ParseControl);
  }

  // ----------------------------------------------------------- role binds

  /**
   * A user id to role map; the object starts null and gets one member per
   * binding, so an empty map packs to null.
   */
  function PackRoleBinds(binds: map<string, int>): Value
  {
    if binds == map[] then Null
    else Obj(map u | u in binds :: UserKey(u) := Int(binds[u]))
  }

  /** Every member of the object read through `getMemberNames`, its value with `asInt`. */
  function ParseRoleBinds(v: Value): map<string, int>
  {
    map k | k in MemberNames(v) && k.UserKey? :: k.id := AsInt(Member(v, k))
  }

  lemma RoleBindsRoundTrip(binds: map<string, int>)
    ensures ParseRoleBinds(PackRoleBinds(binds)) == binds
  {
    var r := ParseRoleBinds(PackRoleBinds(binds));
    if binds != map[] {
      var v := PackRoleBinds(binds);
      assert MemberNames(v) == set u | u in binds :: UserKey(u);
      forall u | u in binds ensures u in r && r[u] == binds[u] {
        assert UserKey(u) in MemberNames(v);
      }
    }
  }

  // ------------------------------------------------------------- chatroom

  function PackChatroomConfig(c: ChatroomConfig): Value
  {
    Obj(map[enableFileMessage := Bool(c.enableFileMessage), enableImageMessage := Bool(c.enableImageMessage)])
  }

  function ParseChatroomConfig(v: Value): ChatroomConfig
  {
    ChatroomConfig(AsBool(Member(v, enableFileMessage)), AsBool(Member(v, enableImageMessage)))
  }

  lemma ChatroomConfigRoundTrip(c: ChatroomConfig)
    ensures ParseChatroomConfig(PackChatroomConfig(c)) == c
  {
    var v := PackChatroomConfig(c);
    assert Member(v, enableFileMessage) == Bool(c.enableFileMessage);
  }

  // -------------------------------------------------------------- options

  /** `NEMeetingOptions`, shared by start and join requests. */
  datatype MeetingOptions = MeetingOptions(
    noAudio: bool, noVideo: bool, noChat: bool, noInvite: bool, noScreenShare: bool, noView: bool, noWhiteboard: bool,
    noRename: bool, noSip: bool, noMuteAllVideo: bool, noMuteAllAudio: bool, showMemberTag: bool, showMeetingRemainingTip: bool, audioAINSEnabled: bool,
    defaultWindowMode: int, meetingIdDisplayOption: int, joinTimeout: int,
    chatroomConfig: ChatroomConfig,
    fullMoreMenuItems: seq<MenuItem>, fullToolbarMenuItems: seq<MenuItem>)

  /**
   * The member of `options_` under key `k`. `noCloudRecord` is only
   * written by a start request, which passes its flag in `cloudRecord`.
   */
  function OptionsField(o: MeetingOptions, noCloud: bool, k: Key): Value
  {
    if k.noAudio? then Bool(o.noAudio)
    else if k.noVideo? then Bool(o.noVideo)
    else if k.noChat? then Bool(o.noChat)
    else if k.noInvite? then Bool(o.noInvite)
    else if k.noScreenShare? then Bool(o.noScreenShare)
    else if k.noView? then Bool(o.noView)
    else if k.noWhiteboard? then Bool(o.noWhiteboard)
    else if k.noRename? then Bool(o.noRename)
    else if k.noSip? then Bool(o.noSip)
    else if k.noMuteAllVideo? then Bool(o.noMuteAllVideo)
    else if k.noMuteAllAudio? then Bool(o.noMuteAllAudio)
    else if k.showMemberTag? then Bool(o.showMemberTag)
    else if k.showMeetingRemainingTip? then Bool(o.showMeetingRemainingTip)
    else if k.audioAINSEnabled? then Bool(o.audioAINSEnabled)
    else if k.noCloudRecord? then Bool(noCloud)
    else if k.defaultWindowMode? then Int(o.defaultWindowMode)
    else if k.meetingIdDisplayOption? then Int(o.meetingIdDisplayOption)
    else if k.joinTimeout? then Int(o.joinTimeout)
    else if k.chatroomConfig? then PackChatroomConfig(o.chatroomConfig)
    else if k.fullMoreMenuItem? then PackMenuItems(o.fullMoreMenuItems)
    else if k.fullToolbarMenuItem? then PackMenuItems(o.fullToolbarMenuItems)
    else Null
  }

  /** The members of `options_` every request writes: flags, numbers and `chatroomConfig`. */
  function OptionsCommon(o: MeetingOptions, noCloud: bool): map<Key, Value>
  {
    map k | k in {noAudio, noVideo, noChat, noInvite, noScreenShare, noView, noWhiteboard,
                  noRename, noSip, noMuteAllVideo, noMuteAllAudio, showMemberTag, showMeetingRemainingTip,
                  audioAINSEnabled, defaultWindowMode, meetingIdDisplayOption, joinTimeout, chatroomConfig}
      :: OptionsField(o, noCloud, k)
  }

  /**
   * `options_`: the common members, then the menu lists only when they are
   * not empty, and `noCloudRecord` only for a start request.
   */
  function PackOptions(o: MeetingOptions, cloudRecord: Option<bool>): Value
  {
    Obj(OptionsCommon(o, cloudRecord.Some? && cloudRecord.value) + OptionalOptions(o, cloudRecord))
  }

  /** The members of `options_` that are written only under a condition. */
  function OptionalOptions(o: MeetingOptions, cloudRecord: Option<bool>): (r: map<Key, Value>)
    ensures fullMoreMenuItem in r <==> o.fullMoreMenuItems != []
    ensures fullToolbarMenuItem in r <==> o.fullToolbarMenuItems != []
    ensures noCloudRecord in r <==> cloudRecord.Some?
    ensures r.Keys <= {fullMoreMenuItem, fullToolbarMenuItem, noCloudRecord}
  {
    var withMore := PutIf(map[], o.fullMoreMenuItems != [], fullMoreMenuItem, PackMenuItems(o.fullMoreMenuItems));
    var withToolbar := PutIf(withMore, o.fullToolbarMenuItems != [], fullToolbarMenuItem, PackMenuItems(o.fullToolbarMenuItems));
    PutIf(withToolbar, cloudRecord.Some?, noCloudRecord, Bool(cloudRecord.Some? && cloudRecord.value))
  }

  /**
   * Reads `options_` into `prior`: flags, numbers and the chatroom config are
   * overwritten; menu items are appended, and only when their key is present.
   */
  function ParseOptions(v: Value, prior: MeetingOptions): MeetingOptions
  {
    MeetingOptions(
      AsBool(Member(v, noAudio)), AsBool(Member(v, noVideo)), AsBool(Member(v, noChat)), AsBool(Member(v, noInvite)),
      AsBool(Member(v, noScreenShare)), AsBool(Member(v, noView)), AsBool(Member(v, noWhiteboard)), AsBool(Member(v, noRename)),
      AsBool(Member(v, noSip)), AsBool(Member(v, noMuteAllVideo)), AsBool(Member(v, noMuteAllAudio)),
      AsBool(Member(v, showMemberTag)), AsBool(Member(v, showMeetingRemainingTip)), AsBool(Member(v, audioAINSEnabled)),
      AsInt(Member(v, defaultWindowMode)), AsInt(Member(v, meetingIdDisplayOption)), AsInt(Member(v, joinTimeout)),
      ParseChatroomConfig(Member(v, chatroomConfig)),
      prior.fullMoreMenuItems
        + (if IsMember(v, fullMoreMenuItem) then ParseMenuItems(Member(v, fullMoreMenuItem)) else []),
      prior.fullToolbarMenuItems
        + (if IsMember(v, fullToolbarMenuItem) then ParseMenuItems(Member(v, fullToolbarMenuItem)) else []))
  }

  predicate OptionsLayout0(v: Value, o: MeetingOptions)
  {
    && Member(v, noAudio) == Bool(o.noAudio)
    && Member(v, noVideo) == Bool(o.noVideo)
    && Member(v, noChat) == Bool(o.noChat)
    && Member(v, noInvite) == Bool(o.noInvite)
    && Member(v, noScreenShare) == Bool(o.noScreenShare)
    && Member(v, noView) == Bool(o.noView)
    && Member(v, noWhiteboard) == Bool(o.noWhiteboard)
  }

  lemma CommonOptionsLayout0(o: MeetingOptions, noCloud: bool)
    ensures OptionsLayout0(Obj(OptionsCommon(o, noCloud)), o)
  {
    var v := Obj(OptionsCommon(o, noCloud));
    assert Member(v, noAudio) == Bool(o.noAudio);
    assert Member(v, noVideo) == Bool(o.noVideo);
    assert Member(v, noChat) == Bool(o.noChat);
    assert Member(v, noInvite) == Bool(o.noInvite);
    assert Member(v, noScreenShare) == Bool(o.noScreenShare);
    assert Member(v, noView) == Bool(o.noView);
  }

  predicate OptionsLayout1(v: Value, o: MeetingOptions)
  {
    && Member(v, noRename) == Bool(o.noRename)
    && Member(v, noSip) == Bool(o.noSip)
    && Member(v, noMuteAllVideo) == Bool(o.noMuteAllVideo)
    && Member(v, noMuteAllAudio) == Bool(o.noMuteAllAudio)
    && Member(v, showMemberTag) == Bool(o.showMemberTag)
    && Member(v, showMeetingRemainingTip) == Bool(o.showMeetingRemainingTip)
    && Member(v, audioAINSEnabled) == Bool(o.audioAINSEnabled)
  }

  lemma CommonOptionsLayout1(o: MeetingOptions, noCloud: bool)
    ensures OptionsLayout1(Obj(OptionsCommon(o, noCloud)), o)
  {
    var v := Obj(OptionsCommon(o, noCloud));
    assert Member(v, noRename) == Bool(o.noRename);
    assert Member(v, noSip) == Bool(o.noSip);
    assert Member(v, noMuteAllVideo) == Bool(o.noMuteAllVideo);
    assert Member(v, noMuteAllAudio) == Bool(o.noMuteAllAudio);
    assert Member(v, showMemberTag) == Bool(o.showMemberTag);
    assert Member(v, showMeetingRemainingTip) == Bool(o.showMeetingRemainingTip);
  }

  predicate OptionsLayout2(v: Value, o: MeetingOptions)
  {
    && Member(v, defaultWindowMode) == Int(o.defaultWindowMode)
    && Member(v, meetingIdDisplayOption) == Int(o.meetingIdDisplayOption)
    && Member(v, joinTimeout) == Int(o.joinTimeout)
  }

  lemma CommonOptionsLayout2(o: MeetingOptions, noCloud: bool)
    ensures OptionsLayout2(Obj(OptionsCommon(o, noCloud)), o)
  {
    var v := Obj(OptionsCommon(o, noCloud));
    assert Member(v, defaultWindowMode) == Int(o.defaultWindowMode);
    assert Member(v, meetingIdDisplayOption) == Int(o.meetingIdDisplayOption);
  }

  predicate OptionsLayout(v: Value, o: MeetingOptions, cloudRecord: Option<bool>)
  {
    OptionsLayout0(v, o) && OptionsLayout1(v, o) && OptionsLayout2(v, o) && OptionsLayout3(v, o, cloudRecord)
  }

  /** The chatroom object, the menu lists (present exactly when not empty) and the cloud-record flag. */
  predicate OptionsLayout3(v: Value, o: MeetingOptions, cloudRecord: Option<bool>)
  {
    && Member(v, chatroomConfig) == PackChatroomConfig(o.chatroomConfig)
    && (IsMember(v, fullMoreMenuItem) <==> o.fullMoreMenuItems != [])
    && Member(v, fullMoreMenuItem) == PackMenuItems(o.fullMoreMenuItems)
    && (IsMember(v, fullToolbarMenuItem) <==> o.fullToolbarMenuItems != [])
    && Member(v, fullToolbarMenuItem) == PackMenuItems(o.fullToolbarMenuItems)
    && (IsMember(v, noCloudRecord) <==> cloudRecord.Some?)
    && (cloudRecord.Some? ==> Member(v, noCloudRecord) == Bool(cloudRecord.value))
  }

  /** The common members hold the chatroom object and none of the optional keys. */
  lemma CommonOptionsLayout3(o: MeetingOptions, noCloud: bool)
    ensures Member(Obj(OptionsCommon(o, noCloud)), chatroomConfig) == PackChatroomConfig(o.chatroomConfig)
    ensures fullMoreMenuItem !in OptionsCommon(o, noCloud) && fullToolbarMenuItem !in OptionsCommon(o, noCloud)
    ensures noCloudRecord !in OptionsCommon(o, noCloud)
  {
  }

  lemma PackOptionsLayout0(o: MeetingOptions, cloudRecord: Option<bool>)
    ensures OptionsLayout0(PackOptions(o, cloudRecord), o)
  {
    var noCloud := cloudRecord.Some? && cloudRecord.value;
    CommonOptionsLayout0(o, noCloud);
    OptionalKeepsLayout0(OptionsCommon(o, noCloud), OptionalOptions(o, cloudRecord), o);
  }

  lemma OptionalKeepsLayout0(common: map<Key, Value>, optional: map<Key, Value>, o: MeetingOptions)
    requires OptionsLayout0(Obj(common), o)
    requires optional.Keys <= {fullMoreMenuItem, fullToolbarMenuItem, noCloudRecord}
    ensures OptionsLayout0(Obj(common + optional), o)
  {
    MergeMembers(common, optional);
  }

  lemma PackOptionsLayout1(o: MeetingOptions, cloudRecord: Option<bool>)
    ensures OptionsLayout1(PackOptions(o, cloudRecord), o)
  {
    var noCloud := cloudRecord.Some? && cloudRecord.value;
    CommonOptionsLayout1(o, noCloud);
    OptionalKeepsLayout1(OptionsCommon(o, noCloud), OptionalOptions(o, cloudRecord), o);
  }

  lemma OptionalKeepsLayout1(common: map<Key, Value>, optional: map<Key, Value>, o: MeetingOptions)
    requires OptionsLayout1(Obj(common), o)
    requires optional.Keys <= {fullMoreMenuItem, fullToolbarMenuItem, noCloudRecord}
    ensures OptionsLayout1(Obj(common + optional), o)
  {
    MergeMembers(common, optional);
  }

  lemma PackOptionsLayout2(o: MeetingOptions, cloudRecord: Option<bool>)
    ensures OptionsLayout2(PackOptions(o, cloudRecord), o)
  {
    var noCloud := cloudRecord.Some? && cloudRecord.value;
    CommonOptionsLayout2(o, noCloud);
    OptionalKeepsLayout2(OptionsCommon(o, noCloud), OptionalOptions(o, cloudRecord), o);
  }

  lemma OptionalKeepsLayout2(common: map<Key, Value>, optional: map<Key, Value>, o: MeetingOptions)
    requires OptionsLayout2(Obj(common), o)
    requires optional.Keys <= {fullMoreMenuItem, fullToolbarMenuItem, noCloudRecord}
    ensures OptionsLayout2(Obj(common + optional), o)
  {
    MergeMembers(common, optional);
  }

  lemma PackOptionsLayout3(o: MeetingOptions, cloudRecord: Option<bool>)
    ensures OptionsLayout3(PackOptions(o, cloudRecord), o, cloudRecord)
  {
    var noCloud := cloudRecord.Some? && cloudRecord.value;
    CommonOptionsLayout3(o, noCloud);
    MergeMembers(OptionsCommon(o, noCloud), OptionalOptions(o, cloudRecord));
  }

  lemma PackOptionsLayout(o: MeetingOptions, cloudRecord: Option<bool>)
    ensures OptionsLayout(PackOptions(o, cloudRecord), o, cloudRecord)
  {
    PackOptionsLayout0(o, cloudRecord);
    PackOptionsLayout1(o, cloudRecord);
    PackOptionsLayout2(o, cloudRecord);
    PackOptionsLayout3(o, cloudRecord);
  }

  /** `o` as parsing it into `prior` leaves it: `prior`'s menu items stay in front. */
  function OptionsInto(prior: MeetingOptions, o: MeetingOptions): MeetingOptions
  {
    o.(fullMoreMenuItems := prior.fullMoreMenuItems + o.fullMoreMenuItems,
       fullToolbarMenuItems := prior.fullToolbarMenuItems + o.fullToolbarMenuItems)
  }

  lemma OptionsIntoFresh(prior: MeetingOptions, o: MeetingOptions)
    requires prior.fullMoreMenuItems == [] && prior.fullToolbarMenuItems == []
    ensures OptionsInto(prior, o) == o
  {
    assert prior.fullMoreMenuItems + o.fullMoreMenuItems == o.fullMoreMenuItems;
    assert prior.fullToolbarMenuItems + o.fullToolbarMenuItems == o.fullToolbarMenuItems;
  }

  /** Any tree in the layout reads back as `o`, with `prior`'s menu items kept in front. */
  lemma ReadOptions(v: Value, o: MeetingOptions, cloudRecord: Option<bool>, prior: MeetingOptions)
    requires OptionsLayout(v, o, cloudRecord)
    ensures ParseOptions(v, prior) == OptionsInto(prior, o)
  {
    ChatroomConfigRoundTrip(o.chatroomConfig);
    MenuItemsRoundTrip(o.fullMoreMenuItems);
    MenuItemsRoundTrip(o.fullToolbarMenuItems);
  }

  // -------------------------------------------------------- start request

  /** `NEStartMeetingParams`. */
  datatype StartParams = StartParams(
    displayName: string, meetingId: string, tag: string, password: string, extraData: string,
    scene: MeetingScene, roleBinds: map<string, int>, controls: seq<MeetingControl>)

  /** `StartRequest`; `noCloudRecord` is the one option a join request lacks. */
  datatype StartRequest = StartRequest(param: StartParams, options: MeetingOptions, noCloudRecord: bool)

  function StartParamField(p: StartParams, k: Key): Value
  {
    if k.displayName? then Str(p.displayName)
    else if k.meetingId? then Str(p.meetingId)
    else if k.sceneCode? then Str(p.scene.code)
    else if k.tag? then Str(p.tag)
    else if k.password? then Str(p.password)
    else if k.extraData? then Str(p.extraData)
    else if k.roleBinds? then PackRoleBinds(p.roleBinds)
    else Null
  }

  /**
   * `param_` of a start request: the strings and `roleBinds` always, the
   * role list and the controls only when they are not empty.
   */
  function PackStartParams(p: StartParams): Value
  {
    Obj(StartParamsCommon(p) + StartParamsOptional(p))
  }

  function StartParamsCommon(p: StartParams): map<Key, Value>
  {
    map k | k in {displayName, meetingId, sceneCode, tag, password, extraData, roleBinds} :: StartParamField(p, k)
  }

  function StartParamsOptional(p: StartParams): (r: map<Key, Value>)
    ensures roleTypes in r <==> p.scene.roleTypes != []
    ensures controls in r <==> p.controls != []
    ensures r.Keys <= {roleTypes, controls}
    ensures roleTypes in r ==> r[roleTypes] == PackRoleConfigurations(p.scene.roleTypes)
    ensures controls in r ==> r[controls] == PackControls(p.controls)
  {
    var withRoles := PutIf(map[], p.scene.roleTypes != [], roleTypes, PackRoleConfigurations(p.scene.roleTypes));
    PutIf(withRoles, p.controls != [], controls, PackControls(p.controls))
  }

  function PackStartRequest(r: StartRequest): Value
  {
    Obj(map[param_ := PackStartParams(r.param), options_ := PackOptions(r.options, Some(r.noCloudRecord))])
  }

  /**
   * Reads a start request into `prior`: role types are replaced, controls
   * and menu items appended, role bindings merged (a packed binding wins).
   */
  function ParseStartRequest(root: Value, prior: StartRequest): StartRequest
  {
    var p := Member(root, param_);
    var o := Member(root, options_);
    StartRequest(
      StartParams(
        AsString(Member(p, displayName)), AsString(Member(p, meetingId)), AsString(Member(p, tag)),
        AsString(Member(p, password)), AsString(Member(p, extraData)),
        MeetingScene(AsString(Member(p, sceneCode)), ParseRoleConfigurations(Member(p, roleTypes), false)),
        prior.param.roleBinds + ParseRoleBinds(Member(p, roleBinds)),
        prior.param.controls + ParseControls(Member(p, controls))),
      ParseOptions(o, prior.options),
      AsBool(Member(o, noCloudRecord)))
  }

  predicate StartParamsLayout0(v: Value, p: StartParams)
  {
    && Member(v, displayName) == Str(p.displayName)
    && Member(v, meetingId) == Str(p.meetingId)
    && Member(v, sceneCode) == Str(p.scene.code)
    && Member(v, tag) == Str(p.tag)
    && Member(v, password) == Str(p.password)
    && Member(v, extraData) == Str(p.extraData)
  }

  /** The collections; an empty role list or control list is absent, which reads like null. */
  predicate StartParamsLayout1(v: Value, p: StartParams)
  {
    && Member(v, roleBinds) == PackRoleBinds(p.roleBinds)
    && (IsMember(v, roleTypes) <==> p.scene.roleTypes != [])
    && Member(v, roleTypes) == PackRoleConfigurations(p.scene.roleTypes)
    && (IsMember(v, controls) <==> p.controls != [])
    && Member(v, controls) == PackControls(p.controls)
  }

  lemma PackStartParamsLayout(p: StartParams)
    ensures StartParamsLayout0(PackStartParams(p), p) && StartParamsLayout1(PackStartParams(p), p)
  {
    CommonStartParamsLayout(p);
    OptionalKeepsStartParams(StartParamsCommon(p), StartParamsOptional(p), p);
    OptionalStartParams(StartParamsCommon(p), StartParamsOptional(p), p);
  }

  lemma CommonStartParamsLayout(p: StartParams)
    ensures StartParamsLayout0(Obj(StartParamsCommon(p)), p)
    ensures Member(Obj(StartParamsCommon(p)), roleBinds) == PackRoleBinds(p.roleBinds)
    ensures roleTypes !in StartParamsCommon(p) && controls !in StartParamsCommon(p)
  {
    var c := Obj(StartParamsCommon(p));
    assert Member(c, displayName) == Str(p.displayName);
    assert Member(c, meetingId) == Str(p.meetingId);
    assert Member(c, sceneCode) == Str(p.scene.code);
    assert Member(c, tag) == Str(p.tag);
    assert Member(c, password) == Str(p.password);
    assert Member(c, extraData) == Str(p.extraData);
  }

  lemma OptionalKeepsStartParams(common: map<Key, Value>, optional: map<Key, Value>, p: StartParams)
    requires StartParamsLayout0(Obj(common), p)
    requires optional.Keys <= {roleTypes, controls}
    ensures StartParamsLayout0(Obj(common + optional), p)
  {
    MergeMembers(common, optional);
  }

  lemma OptionalStartParams(common: map<Key, Value>, optional: map<Key, Value>, p: StartParams)
    requires Member(Obj(common), roleBinds) == PackRoleBinds(p.roleBinds)
    requires roleTypes !in common && controls !in common
    requires optional.Keys <= {roleTypes, controls}
    requires roleTypes in optional <==> p.scene.roleTypes != []
    requires controls in optional <==> p.controls != []
    requires roleTypes in optional ==> optional[roleTypes] == PackRoleConfigurations(p.scene.roleTypes)
    requires controls in optional ==> optional[controls] == PackControls(p.controls)
    ensures StartParamsLayout1(Obj(common + optional), p)
  {
    MergeMembers(common, optional);
  }

  /**
   * `r` as parsing it into `prior` leaves it: role types replaced, but
   * `prior`'s controls and menu items kept in front and its role bindings
   * kept where `r` binds no role.
   */
  function StartInto(prior: StartRequest, r: StartRequest): StartRequest
  {
    r.(param := r.param.(roleBinds := prior.param.roleBinds + r.param.roleBinds,
                         controls := prior.param.controls + r.param.controls),
       options := OptionsInto(prior.options, r.options))
  }

  /** An object nothing was appended to yet, such as a default-constructed request. */
  predicate FreshStart(prior: StartRequest)
  {
    && prior.param.roleBinds == map[] && prior.param.controls == []
    && prior.options.fullMoreMenuItems == [] && prior.options.fullToolbarMenuItems == []
  }

  lemma ReadStartRequest(root: Value, r: StartRequest, prior: StartRequest)
    requires StartParamsLayout0(Member(root, param_), r.param) && StartParamsLayout1(Member(root, param_), r.param)
    requires OptionsLayout(Member(root, options_), r.options, Some(r.noCloudRecord))
    requires AllUnsignedFit(r.param.scene.roleTypes, false)
    ensures ParseStartRequest(root, prior) == StartInto(prior, r)
  {
    RoleConfigurationsRoundTrip(r.param.scene.roleTypes, false);
    ControlsRoundTrip(r.param.controls);
    RoleBindsRoundTrip(r.param.roleBinds);
    ReadOptions(Member(root, options_), r.options, Some(r.noCloudRecord), prior.options);
  }

  lemma StartRequestMembers(r: StartRequest)
    ensures Member(PackStartRequest(r), param_) == PackStartParams(r.param)
    ensures Member(PackStartRequest(r), options_) == PackOptions(r.options, Some(r.noCloudRecord))
  {
  }

  /**
   * Parsing a packed start request into `prior` gives back every field of
   * `r`, with `prior`'s appended collections in front.
   */
  lemma StartRequestRoundTrip(r: StartRequest, prior: StartRequest)
    requires AllUnsignedFit(r.param.scene.roleTypes, false)
    ensures ParseStartRequest(PackStartRequest(r), prior) == StartInto(prior, r)
  {
    var root := PackStartRequest(r);
    StartRequestMembers(r);
    PackStartParamsLayout(r.param);
    PackOptionsLayout(r.options, Some(r.noCloudRecord));
    ReadStartRequest(root, r, prior);
  }

  /** Into a fresh object, a packed start request parses back exactly. */
  lemma FreshStartRoundTrip(r: StartRequest, prior: StartRequest)
    requires AllUnsignedFit(r.param.scene.roleTypes, false)
    requires FreshStart(prior)
    ensures ParseStartRequest(PackStartRequest(r), prior) == r
  {
    StartRequestRoundTrip(r, prior);
    StartIntoFresh(prior, r);
  }

  lemma StartIntoFresh(prior: StartRequest, r: StartRequest)
    requires FreshStart(prior)
    ensures StartInto(prior, r) == r
  {
    assert prior.param.roleBinds + r.param.roleBinds == r.param.roleBinds;
    assert prior.param.controls + r.param.controls == r.param.controls;
    OptionsIntoFresh(prior.options, r.options);
  }

  /**
   * Parsing the same start request twice into one object duplicates its
   * controls, which is why the receiver must parse into a fresh object.
   */
  lemma StartReparseDuplicates(r: StartRequest, prior: StartRequest)
    requires AllUnsignedFit(r.param.scene.roleTypes, false)
    requires FreshStart(prior)
    ensures ParseStartRequest(PackStartRequest(r), ParseStartRequest(PackStartRequest(r), prior)).param.controls
      == r.param.controls + r.param.controls
  {
    FreshStartRoundTrip(r, prior);
    StartRequestRoundTrip(r, r);
  }

  /**
   * A root without members parses to the null-conversion defaults: empty
   * strings, false flags, zero numbers, no role types, and `prior`'s
   * collections unchanged.
   */
  lemma StartRequestDefaults(prior: StartRequest)
    ensures var r := ParseStartRequest(Obj(map[]), prior);
      && r.param.displayName == "" && r.param.meetingId == "" && r.param.tag == ""
      && r.param.password == "" && r.param.extraData == ""
      && r.param.scene == MeetingScene("", [])
      && r.param.roleBinds == prior.param.roleBinds && r.param.controls == prior.param.controls
      && r.options == DefaultOptions(prior.options)
      && !r.noCloudRecord
  {
    var root := Obj(map[]);
    assert Member(root, param_) == Null && Member(root, options_) == Null;
    NullOptions(prior.options);
    NullParamCollections(prior.param);
  }

  /** A missing `param_` member adds no role binds and no controls, and gives no role types. */
  lemma NullParamCollections(prior: StartParams)
    ensures prior.roleBinds + ParseRoleBinds(Null) == prior.roleBinds
    ensures prior.controls + ParseControls(Null) == prior.controls
    ensures ParseRoleConfigurations(Null, false) == []
  {
    assert ParseRoleBinds(Null) == map[];
    assert Elements(Null) == [];
  }

  /** Every flag false, every number 0, both chatroom flags false, and `prior`'s menu items. */
  function DefaultOptions(prior: MeetingOptions): MeetingOptions
  {
    MeetingOptions(
      false, false, false, false, false, false, false,
      false, false, false, false, false, false, false,
      0, 0, 0,
      ChatroomConfig(false, false),
      prior.fullMoreMenuItems, prior.fullToolbarMenuItems)
  }

  /** A missing `options_` member resets every option and keeps the prior menus. */
  lemma NullOptions(prior: MeetingOptions)
    ensures ParseOptions(Null, prior) == DefaultOptions(prior)
  {
    assert ParseChatroomConfig(Null) == ChatroomConfig(false, false);
  }

  // --------------------------------------------------------- join request

  /** `NEJoinMeetingParams`. */
  datatype JoinParams = JoinParams(displayName: string, meetingId: string, password: string, tag: string)

  datatype JoinRequest = JoinRequest(param: JoinParams, options: MeetingOptions)

  function PackJoinParams(p: JoinParams): Value
  {
    Obj(map[displayName := Str(p.displayName), meetingId := Str(p.meetingId),
            password := Str(p.password), tag := Str(p.tag)])
  }

  /** A join request writes no `noCloudRecord`, `roleBinds`, `controls` or `extraData`. */
  function PackJoinRequest(r: JoinRequest): Value
  {
    Obj(map[param_ := PackJoinParams(r.param), options_ := PackOptions(r.options, None)])
  }

  /** Reads a join request into `prior`: menu items are appended, the rest overwritten. */
  function ParseJoinRequest(root: Value, prior: JoinRequest): JoinRequest
  {
    JoinRequest(ParseJoinParams(Member(root, param_)), ParseOptions(Member(root, options_), prior.options))
  }

  function ParseJoinParams(v: Value): JoinParams
  {
    JoinParams(AsString(Member(v, displayName)), AsString(Member(v, meetingId)),
               AsString(Member(v, password)), AsString(Member(v, tag)))
  }

  lemma JoinParamsRoundTrip(p: JoinParams)
    ensures ParseJoinParams(PackJoinParams(p)) == p
  {
    var v := PackJoinParams(p);
    assert Member(v, displayName) == Str(p.displayName);
    assert Member(v, meetingId) == Str(p.meetingId);
    assert Member(v, password) == Str(p.password);
  }

  lemma JoinRequestRoundTrip(r: JoinRequest, prior: JoinRequest)
    ensures ParseJoinRequest(PackJoinRequest(r), prior) == r.(options := OptionsInto(prior.options, r.options))
  {
    var root := PackJoinRequest(r);
    assert Member(root, param_) == PackJoinParams(r.param);
    assert Member(root, options_) == PackOptions(r.options, None);
    JoinParamsRoundTrip(r.param);
    PackOptionsLayout(r.options, None);
    ReadOptions(PackOptions(r.options, None), r.options, None, prior.options);
  }

  /** Into an object without menu items, a packed join request parses back exactly. */
  lemma FreshJoinRoundTrip(r: JoinRequest, prior: JoinRequest)
    requires prior.options.fullMoreMenuItems == [] && prior.options.fullToolbarMenuItems == []
    ensures ParseJoinRequest(PackJoinRequest(r), prior) == r
  {
    JoinRequestRoundTrip(r, prior);
    OptionsIntoFresh(prior.options, r.options);
  }

  /** What a join request leaves out, compared with a start request. */
  lemma JoinOmitsStartOnlyMembers(r: JoinRequest)
    ensures MemberNames(Member(PackJoinRequest(r), param_)) == {displayName, meetingId, password, tag}
    ensures !IsMember(Member(PackJoinRequest(r), options_), noCloudRecord)
  {
    var root := PackJoinRequest(r);
    assert Member(root, param_) == PackJoinParams(r.param);
    assert Member(root, options_) == PackOptions(r.options, None);
    CommonOptionsLayout3(r.options, false);
  }

  // ------------------------------------------- leave and status messages

  function PackLeaveRequest(finishMeeting: bool): Value
  {
    Obj(map[finish := Bool(finishMeeting)])
  }

  function ParseLeaveRequest(root: Value): bool
  {
    AsBool(Member(root, finish))
  }

  lemma LeaveRequestRoundTrip(finishMeeting: bool)
    ensures ParseLeaveRequest(PackLeaveRequest(finishMeeting)) == finishMeeting
    ensures !ParseLeaveRequest(Obj(map[]))
  {
  }

  /** `MeetingStatusChangePack`: the new status and its extended code. */
  datatype StatusChange = StatusChange(status: int, code: int)

  function PackStatusChange(c: StatusChange): Value
  {
    Obj(map[status_ := Int(c.status), code_ := Int(c.code)])
  }

  function ParseStatusChange(root: Value): StatusChange
  {
    StatusChange(AsInt(Member(root, status_)), AsInt(Member(root, code_)))
  }

  lemma StatusChangeRoundTrip(c: StatusChange)
    ensures ParseStatusChange(PackStatusChange(c)) == c
    ensures ParseStatusChange(Obj(map[])) == StatusChange(0, 0)
  {
    assert Member(PackStatusChange(c), status_) == Int(c.status);
  }

  /** `PreMeetingStatusChangePack`: a scheduled meeting's new status. */
  datatype PreMeetingStatusChange = PreMeetingStatusChange(status: int, meetingUniqueId: int)

  function PackPreMeetingStatusChange(c: PreMeetingStatusChange): Value
  {
    Obj(map[status_ := Int(c.status), meetingUniqueId_ := Int(c.meetingUniqueId)])
  }

  function ParsePreMeetingStatusChange(root: Value): PreMeetingStatusChange
  {
    PreMeetingStatusChange(AsInt(Member(root, status_)), AsInt(Member(root, meetingUniqueId_)))
  }

  lemma PreMeetingStatusChangeRoundTrip(c: PreMeetingStatusChange)
    ensures ParsePreMeetingStatusChange(PackPreMeetingStatusChange(c)) == c
    ensures ParsePreMeetingStatusChange(Obj(map[])) == PreMeetingStatusChange(0, 0)
  {
    assert Member(PackPreMeetingStatusChange(c), status_) == Int(c.status);
  }

  // ------------------------------------------------------ menu requests

  /** `GetPresetMenuItemsResponse`: the root stays null when there are no items. */
  function PackPresetMenuItems(items: seq<MenuItem>): Value
  {
    if items == [] then Null else Obj(map[MenuItems := PackMenuItems(items)])
  }

  function ParsePresetMenuItems(root: Value, prior: seq<MenuItem>): seq<MenuItem>
  {
    prior + ParseMenuItems(Member(root, MenuItems))
  }

  lemma PresetMenuItemsRoundTrip(items: seq<MenuItem>, prior: seq<MenuItem>)
    ensures ParsePresetMenuItems(PackPresetMenuItems(items), prior) == prior + items
  {
    MenuItemsRoundTrip(items);
  }

  /** `GetPresetMenuItemsRequest`: the ids are appended to the root itself, which becomes an array. */
  function PackPresetMenuItemIds(ids: seq<int>): Value
  {
    Appended(MapSeq(ids, (i: int) => Int(i)))
  }

  /** Only a root that is an array is read; anything else leaves `prior` as it was. */
  function ParsePresetMenuItemIds(root: Value, prior: seq<int>): seq<int>
  {
    if root.Arr? then prior + MapSeq(root.elems, AsInt) else prior
  }

  lemma {:induction false} PresetMenuItemIdsRoundTrip(ids: seq<int>, prior: seq<int>)
    ensures ParsePresetMenuItemIds(PackPresetMenuItemIds(ids), prior) == prior + ids
    ensures ids != [] <==> PackPresetMenuItemIds(ids).Arr?
  {
    MapSeqInverse(ids, (i: int) => Int(i), AsInt);
  }

  /** `GetPreMeetingListRequest`: the statuses asked for, under `MeetingStatus`. */
  function PackPreMeetingListRequest(statuses: seq<int>): Value
  {
    if statuses == [] then Null else Obj(map[MeetingStatus := Appended(MapSeq(statuses, (i: int) => Int(i)))])
  }

  function ParsePreMeetingListRequest(root: Value, prior: seq<int>): seq<int>
  {
    prior + MapSeq(Elements(Member(root, MeetingStatus)), AsInt)
  }

  lemma {:induction false} PreMeetingListRequestRoundTrip(statuses: seq<int>, prior: seq<int>)
    ensures ParsePreMeetingListRequest(PackPreMeetingListRequest(statuses), prior) == prior + statuses
  {
    MapSeqInverse(statuses, (i: int) => Int(i), AsInt);
  }

  // -------------------------------------------- audio stream subscription

  datatype SubscribeRequest = SubscribeRequest(subscribe: bool, accountIdList: seq<string>)

  function PackSubscribeRequest(r: SubscribeRequest): Value
  {
    Obj(PutIf(map[subscribe := Bool(r.subscribe)], r.accountIdList != [], accountIdList,
              Appended(MapSeq(r.accountIdList, (a: string) => Str(a)))))
  }

  /** Reads a subscription into `prior`: the flag is overwritten, the accounts appended. */
  function ParseSubscribeRequest(root: Value, prior: SubscribeRequest): SubscribeRequest
  {
    SubscribeRequest(AsBool(Member(root, subscribe)),
                     prior.accountIdList + MapSeq(Elements(Member(root, accountIdList)), AsString))
  }

  lemma {:induction false} SubscribeRequestRoundTrip(r: SubscribeRequest, prior: SubscribeRequest)
    ensures ParseSubscribeRequest(PackSubscribeRequest(r), prior)
      == r.(accountIdList := prior.accountIdList + r.accountIdList)
    ensures IsMember(PackSubscribeRequest(r), accountIdList) <==> r.accountIdList != []
  {
    var v := PackSubscribeRequest(r);
    assert Member(v, subscribe) == Bool(r.subscribe);
    MapSeqInverse(r.accountIdList, (a: string) => Str(a), AsString);
  }

  // ------------------------------------------------------- meeting info

  /** `NEInMeetingUserInfo`. */
  datatype InMeetingUser = InMeetingUser(userId: string, userName: string, tag: string)

  /** `NEMeetingInfo`, the answer to a meeting-info request. */
  datatype MeetingInfo = MeetingInfo(
    isHost: bool, isLocked: bool, meetingId: string, duration: int, shortMeetingId: string, sipId: string,
    meetingUniqueId: int, subject: string, password: string, hostUserId: string, scheduleStartTime: int,
    scheduleEndTime: int, startTime: int, extraData: string, meetingCreatorId: string, meetingCreatorName: string,
    userList: seq<InMeetingUser>)

  function PackInMeetingUser(u: InMeetingUser): Value
  {
    Obj(map[userId := Str(u.userId), userName := Str(u.userName), tag := Str(u.tag)])
  }

  function ParseInMeetingUser(v: Value): InMeetingUser
  {
    InMeetingUser(AsString(Member(v, userId)), AsString(Member(v, userName)), AsString(Member(v, tag)))
  }

  lemma {:induction false} InMeetingUsersRoundTrip(us: seq<InMeetingUser>)
    ensures MapSeq(Elements(Appended(MapSeq(us, PackInMeetingUser))), ParseInMeetingUser) == us
  {
    forall u | u in us ensures ParseInMeetingUser(PackInMeetingUser(u)) == u {
      var v := PackInMeetingUser(u);
      assert Member(v, userId) == Str(u.userId);
      assert Member(v, userName) == Str(u.userName);
    }
    MapSeqInverse(us, PackInMeetingUser, ParseInMeetingUser);
  }

  function MeetingInfoField(i: MeetingInfo, k: Key): Value
  {
    if k.isHost? then Bool(i.isHost)
    else if k.isLocked? then Bool(i.isLocked)
    else if k.meetingId? then Str(i.meetingId)
    else if k.duration? then Int(i.duration)
    else if k.shortMeetingId? then Str(i.shortMeetingId)
    else if k.sipId? then Str(i.sipId)
    else if k.meetingUniqueId? then Int(i.meetingUniqueId)
    else if k.subject? then Str(i.subject)
    else if k.password? then Str(i.password)
    else if k.hostUserId? then Str(i.hostUserId)
    else if k.scheduleStartTime? then Int(i.scheduleStartTime)
    else if k.scheduleEndTime? then Int(i.scheduleEndTime)
    else if k.startTime? then Int(i.startTime)
    else if k.extraData? then Str(i.extraData)
    else if k.meetingCreatorId? then Str(i.meetingCreatorId)
    else if k.meetingCreatorName? then Str(i.meetingCreatorName)
    else Null
  }

  function MeetingInfoCommon(i: MeetingInfo): (r: map<Key, Value>)
    ensures userList !in r
  {
    map k | k in {isHost, isLocked, meetingId, duration, shortMeetingId, sipId, meetingUniqueId, subject,
                  password, hostUserId, scheduleStartTime, scheduleEndTime, startTime, extraData, meetingCreatorId, meetingCreatorName}
      :: MeetingInfoField(i, k)
  }

  /** The sixteen scalars always, `userList` only when there are users. */
  function PackMeetingInfo(i: MeetingInfo): Value
  {
    Obj(MeetingInfoCommon(i) + MeetingInfoOptional(i))
  }

  /** Reads meeting info into `prior`: scalars are overwritten, users appended. */
  function ParseMeetingInfo(root: Value, prior: MeetingInfo): MeetingInfo
  {
    MeetingInfo(
      AsBool(Member(root, isHost)), AsBool(Member(root, isLocked)), AsString(Member(root, meetingId)),
      AsInt(Member(root, duration)), AsString(Member(root, shortMeetingId)), AsString(Member(root, sipId)),
      AsInt(Member(root, meetingUniqueId)), AsString(Member(root, subject)), AsString(Member(root, password)),
      AsString(Member(root, hostUserId)), AsInt(Member(root, scheduleStartTime)),
      AsInt(Member(root, scheduleEndTime)), AsInt(Member(root, startTime)), AsString(Member(root, extraData)),
      AsString(Member(root, meetingCreatorId)), AsString(Member(root, meetingCreatorName)),
      prior.userList + MapSeq(Elements(Member(root, userList)), ParseInMeetingUser))
  }

  predicate MeetingInfoLayout0(v: Value, i: MeetingInfo)
  {
    && Member(v, isHost) == Bool(i.isHost)
    && Member(v, isLocked) == Bool(i.isLocked)
    && Member(v, meetingId) == Str(i.meetingId)
    && Member(v, duration) == Int(i.duration)
    && Member(v, shortMeetingId) == Str(i.shortMeetingId)
    && Member(v, sipId) == Str(i.sipId)
  }

  lemma CommonMeetingInfoLayout0(i: MeetingInfo)
    ensures MeetingInfoLayout0(Obj(MeetingInfoCommon(i)), i)
  {
    var v := Obj(MeetingInfoCommon(i));
    assert Member(v, isHost) == Bool(i.isHost);
    assert Member(v, isLocked) == Bool(i.isLocked);
    assert Member(v, meetingId) == Str(i.meetingId);
    assert Member(v, duration) == Int(i.duration);
    assert Member(v, shortMeetingId) == Str(i.shortMeetingId);
  }

  lemma OptionalKeepsMeetingInfo0(common: map<Key, Value>, optional: map<Key, Value>, i: MeetingInfo)
    requires MeetingInfoLayout0(Obj(common), i)
    requires optional.Keys <= {userList}
    ensures MeetingInfoLayout0(Obj(common + optional), i)
  {
    MergeMembers(common, optional);
  }

  predicate MeetingInfoLayout1(v: Value, i: MeetingInfo)
  {
    && Member(v, meetingUniqueId) == Int(i.meetingUniqueId)
    && Member(v, subject) == Str(i.subject)
    && Member(v, password) == Str(i.password)
    && Member(v, hostUserId) == Str(i.hostUserId)
    && Member(v, scheduleStartTime) == Int(i.scheduleStartTime)
  }

  lemma CommonMeetingInfoLayout1(i: MeetingInfo)
    ensures MeetingInfoLayout1(Obj(MeetingInfoCommon(i)), i)
  {
    var v := Obj(MeetingInfoCommon(i));
    assert Member(v, meetingUniqueId) == Int(i.meetingUniqueId);
    assert Member(v, subject) == Str(i.subject);
    assert Member(v, password) == Str(i.password);
    assert Member(v, hostUserId) == Str(i.hostUserId);
  }

  lemma OptionalKeepsMeetingInfo1(common: map<Key, Value>, optional: map<Key, Value>, i: MeetingInfo)
    requires MeetingInfoLayout1(Obj(common), i)
    requires optional.Keys <= {userList}
    ensures MeetingInfoLayout1(Obj(common + optional), i)
  {
    MergeMembers(common, optional);
  }

  predicate MeetingInfoLayout2(v: Value, i: MeetingInfo)
  {
    && Member(v, scheduleEndTime) == Int(i.scheduleEndTime)
    && Member(v, startTime) == Int(i.startTime)
    && Member(v, extraData) == Str(i.extraData)
    && Member(v, meetingCreatorId) == Str(i.meetingCreatorId)
    && Member(v, meetingCreatorName) == Str(i.meetingCreatorName)
  }

  lemma CommonMeetingInfoLayout2(i: MeetingInfo)
    ensures MeetingInfoLayout2(Obj(MeetingInfoCommon(i)), i)
  {
    var v := Obj(MeetingInfoCommon(i));
    assert Member(v, scheduleEndTime) == Int(i.scheduleEndTime);
    assert Member(v, startTime) == Int(i.startTime);
    assert Member(v, extraData) == Str(i.extraData);
    assert Member(v, meetingCreatorId) == Str(i.meetingCreatorId);
  }

  lemma OptionalKeepsMeetingInfo2(common: map<Key, Value>, optional: map<Key, Value>, i: MeetingInfo)
    requires MeetingInfoLayout2(Obj(common), i)
    requires optional.Keys <= {userList}
    ensures MeetingInfoLayout2(Obj(common + optional), i)
  {
    MergeMembers(common, optional);
  }

  lemma ReadMeetingInfo(root: Value, i: MeetingInfo, prior: MeetingInfo)
    requires MeetingInfoLayout0(root, i) && MeetingInfoLayout1(root, i) && MeetingInfoLayout2(root, i)
    requires Member(root, userList) == Appended(MapSeq(i.userList, PackInMeetingUser))
    ensures ParseMeetingInfo(root, prior) == i.(userList := prior.userList + i.userList)
  {
    InMeetingUsersRoundTrip(i.userList);
  }

  function MeetingInfoOptional(i: MeetingInfo): (r: map<Key, Value>)
    ensures r.Keys <= {userList}
    ensures Member(Obj(r), userList) == Appended(MapSeq(i.userList, PackInMeetingUser))
  {
    PutIf(map[], i.userList != [], userList, Appended(MapSeq(i.userList, PackInMeetingUser)))
  }

  lemma PackMeetingInfoLayout(i: MeetingInfo)
    ensures var v := PackMeetingInfo(i);
      MeetingInfoLayout0(v, i) && MeetingInfoLayout1(v, i) && MeetingInfoLayout2(v, i)
    ensures Member(PackMeetingInfo(i), userList) == Appended(MapSeq(i.userList, PackInMeetingUser))
  {
    var common, optional := MeetingInfoCommon(i), MeetingInfoOptional(i);
    CommonMeetingInfoLayout0(i);
    CommonMeetingInfoLayout1(i);
    CommonMeetingInfoLayout2(i);
    OptionalKeepsMeetingInfo0(common, optional, i);
    OptionalKeepsMeetingInfo1(common, optional, i);
    OptionalKeepsMeetingInfo2(common, optional, i);
    MeetingInfoUsers(common, optional);
  }

  lemma MeetingInfoUsers(common: map<Key, Value>, optional: map<Key, Value>)
    requires userList !in common || userList in optional
    ensures Member(Obj(common + optional), userList) == Member(Obj(optional), userList)
  {
  }

  /**
   * `GetMeetingInfoResponse`: every field comes back, the users in order
   * after `prior`'s.
   */
  lemma MeetingInfoRoundTrip(i: MeetingInfo, prior: MeetingInfo)
    ensures ParseMeetingInfo(PackMeetingInfo(i), prior) == i.(userList := prior.userList + i.userList)
  {
    PackMeetingInfoLayout(i);
    ReadMeetingInfo(PackMeetingInfo(i), i, prior);
  }

  // ------------------------------------------------- scheduled meetings

  /** `NEMeetingItemSetting`. */
  datatype MeetingItemSetting = MeetingItemSetting(
    attendeeAudioOff: bool, cloudRecordOn: bool, scene: MeetingScene, controls: seq<MeetingControl>)

  /** `NEMeetingItem`, a scheduled meeting. */
  datatype MeetingItem = MeetingItem(
    meetingId: string, startTime: int, endTime: int, subject: string, password: string,
    setting: MeetingItemSetting, meetingUniqueId: int, status: int, createTime: int, updateTime: int,
    enableLive: bool, noSip: bool, liveWebAccessControlLevel: int, liveUrl: string, extraData: string,
    roleBinds: map<string, int>)

  /**
   * The member under `k` of a scheduled-meeting object. The scalars are
   * shared by the request, the response and the list; `sceneCode` and
   * `roleBinds` sit directly in the request and response objects, while a
   * list element nests them under `scene` and `param_`.
   */
  function MeetingItemField(m: MeetingItem, k: Key): Value
  {
    if k.meetingId? then Str(m.meetingId)
    else if k.starttime? then Int(m.startTime)
    else if k.endtime? then Int(m.endTime)
    else if k.meetingSubject? then Str(m.subject)
    else if k.password? then Str(m.password)
    else if k.AttendeeAudioOff? then Bool(m.setting.attendeeAudioOff)
    else if k.cloudRecordOnSpaced? then Bool(m.setting.cloudRecordOn)
    else if k.meetingUniqueId? then Int(m.meetingUniqueId)
    else if k.meetingStatus? then Int(m.status)
    else if k.createTime? then Int(m.createTime)
    else if k.updateTime? then Int(m.updateTime)
    else if k.enableLive? then Bool(m.enableLive)
    else if k.noSip? then Bool(m.noSip)
    else if k.liveWebAccessControlLevel? then Int(m.liveWebAccessControlLevel)
    else if k.liveUrl? then Str(m.liveUrl)
    else if k.extraData? then Str(m.extraData)
    else if k.sceneCode? then Str(m.setting.scene.code)
    else if k.roleBinds? then PackRoleBinds(m.roleBinds)
    else if k.scene? then PackListScene(m.setting.scene)
    else if k.param_? then PackListParam(m)
    else Null
  }

  /** The `scene` member of a list element: the code, and the roles when there are any. */
  function PackListScene(s: MeetingScene): Value
  {
    Obj(PutIf(map[sceneCode := Str(s.code)], s.roleTypes != [], roleTypes, PackRoleConfigurations(s.roleTypes)))
  }

  /** The `param_` member of a list element: the role bindings, and the controls when there are any. */
  function PackListParam(m: MeetingItem): Value
  {
    Obj(PutIf(map[roleBinds := PackRoleBinds(m.roleBinds)], m.setting.controls != [], controls, PackControls(m.setting.controls)))
  }

  /** The object under `param_` in a pre-meeting request or response. */
  function PackPreMeetingParam(m: MeetingItem): Value
  {
    Obj(PreMeetingCommon(m) + PreMeetingOptional(m))
  }

  function PreMeetingCommon(m: MeetingItem): (r: map<Key, Value>)
    ensures roleTypes !in r && controls !in r
  {
    map k | k in {meetingId, starttime, endtime, meetingSubject, password, AttendeeAudioOff,
                  cloudRecordOnSpaced, meetingUniqueId, meetingStatus, createTime, updateTime, enableLive,
                  noSip, liveWebAccessControlLevel, liveUrl, extraData, sceneCode, roleBinds}
      :: MeetingItemField(m, k)
  }

  function PreMeetingOptional(m: MeetingItem): (r: map<Key, Value>)
    ensures r.Keys <= {roleTypes, controls}
    ensures roleTypes in r <==> m.setting.scene.roleTypes != []
    ensures controls in r <==> m.setting.controls != []
    ensures Member(Obj(r), roleTypes) == PackRoleConfigurations(m.setting.scene.roleTypes)
    ensures Member(Obj(r), controls) == PackControls(m.setting.controls)
  {
    var withRoles := PutIf(map[], m.setting.scene.roleTypes != [], roleTypes, PackRoleConfigurations(m.setting.scene.roleTypes));
    PutIf(withRoles, m.setting.controls != [], controls, PackControls(m.setting.controls))
  }

  /** A list element: the scalars, then `scene` and `param_`. */
  function PackListItem(m: MeetingItem): Value
  {
    Obj(ListItemCommon(m))
  }

  function ListItemCommon(m: MeetingItem): map<Key, Value>
  {
    map k | k in {meetingId, starttime, endtime, meetingSubject, password, AttendeeAudioOff,
                  cloudRecordOnSpaced, meetingUniqueId, meetingStatus, createTime, updateTime, enableLive,
                  noSip, liveWebAccessControlLevel, liveUrl, extraData, scene, param_}
      :: MeetingItemField(m, k)
  }

  /**
   * Reads the scalars every scheduled-meeting object carries; the scene,
   * the controls and the role bindings are read by the caller.
   */
  function ReadMeetingItem(v: Value, scene: MeetingScene, controls: seq<MeetingControl>, roleBinds: map<string, int>): MeetingItem
  {
    MeetingItem(
      AsString(Member(v, meetingId)), AsInt(Member(v, starttime)), AsInt(Member(v, endtime)),
      AsString(Member(v, meetingSubject)), AsString(Member(v, password)),
      MeetingItemSetting(AsBool(Member(v, AttendeeAudioOff)), AsBool(Member(v, cloudRecordOnSpaced)), scene, controls),
      AsInt(Member(v, meetingUniqueId)), AsInt(Member(v, meetingStatus)),
      AsInt(Member(v, createTime)), AsInt(Member(v, updateTime)),
      AsBool(Member(v, enableLive)), AsBool(Member(v, noSip)),
      AsInt(Member(v, liveWebAccessControlLevel)), AsString(Member(v, liveUrl)), AsString(Member(v, extraData)),
      roleBinds)
  }

  predicate MeetingItemLayout0(v: Value, m: MeetingItem)
  {
    && Member(v, meetingId) == Str(m.meetingId)
    && Member(v, starttime) == Int(m.startTime)
    && Member(v, endtime) == Int(m.endTime)
    && Member(v, meetingSubject) == Str(m.subject)
    && Member(v, password) == Str(m.password)
    && Member(v, AttendeeAudioOff) == Bool(m.setting.attendeeAudioOff)
  }

  lemma PreMeetingLayout0(m: MeetingItem)
    ensures MeetingItemLayout0(Obj(PreMeetingCommon(m)), m)
  {
    var v := Obj(PreMeetingCommon(m));
    assert Member(v, meetingId) == Str(m.meetingId);
    assert Member(v, starttime) == Int(m.startTime);
    assert Member(v, endtime) == Int(m.endTime);
    assert Member(v, meetingSubject) == Str(m.subject);
    assert Member(v, password) == Str(m.password);
  }

  lemma ListItemLayout0(m: MeetingItem)
    ensures MeetingItemLayout0(Obj(ListItemCommon(m)), m)
  {
    var v := Obj(ListItemCommon(m));
    assert Member(v, meetingId) == Str(m.meetingId);
    assert Member(v, starttime) == Int(m.startTime);
    assert Member(v, endtime) == Int(m.endTime);
    assert Member(v, meetingSubject) == Str(m.subject);
    assert Member(v, password) == Str(m.password);
  }

  lemma OptionalKeepsMeetingItem0(common: map<Key, Value>, optional: map<Key, Value>, m: MeetingItem)
    requires MeetingItemLayout0(Obj(common), m)
    requires optional.Keys <= {roleTypes, controls}
    ensures MeetingItemLayout0(Obj(common + optional), m)
  {
    MergeMembers(common, optional);
  }

  predicate MeetingItemLayout1(v: Value, m: MeetingItem)
  {
    && Member(v, cloudRecordOnSpaced) == Bool(m.setting.cloudRecordOn)
    && Member(v, meetingUniqueId) == Int(m.meetingUniqueId)
    && Member(v, meetingStatus) == Int(m.status)
    && Member(v, createTime) == Int(m.createTime)
    && Member(v, updateTime) == Int(m.updateTime)
  }

  lemma PreMeetingLayout1(m: MeetingItem)
    ensures MeetingItemLayout1(Obj(PreMeetingCommon(m)), m)
  {
    var v := Obj(PreMeetingCommon(m));
    assert Member(v, cloudRecordOnSpaced) == Bool(m.setting.cloudRecordOn);
    assert Member(v, meetingUniqueId) == Int(m.meetingUniqueId);
    assert Member(v, meetingStatus) == Int(m.status);
    assert Member(v, createTime) == Int(m.createTime);
  }

  lemma ListItemLayout1(m: MeetingItem)
    ensures MeetingItemLayout1(Obj(ListItemCommon(m)), m)
  {
    var v := Obj(ListItemCommon(m));
    assert Member(v, cloudRecordOnSpaced) == Bool(m.setting.cloudRecordOn);
    assert Member(v, meetingUniqueId) == Int(m.meetingUniqueId);
    assert Member(v, meetingStatus) == Int(m.status);
    assert Member(v, createTime) == Int(m.createTime);
  }

  lemma OptionalKeepsMeetingItem1(common: map<Key, Value>, optional: map<Key, Value>, m: MeetingItem)
    requires MeetingItemLayout1(Obj(common), m)
    requires optional.Keys <= {roleTypes, controls}
    ensures MeetingItemLayout1(Obj(common + optional), m)
  {
    MergeMembers(common, optional);
  }

  predicate MeetingItemLayout2(v: Value, m: MeetingItem)
  {
    && Member(v, enableLive) == Bool(m.enableLive)
    && Member(v, noSip) == Bool(m.noSip)
    && Member(v, liveWebAccessControlLevel) == Int(m.liveWebAccessControlLevel)
    && Member(v, liveUrl) == Str(m.liveUrl)
    && Member(v, extraData) == Str(m.extraData)
  }

  lemma PreMeetingLayout2(m: MeetingItem)
    ensures MeetingItemLayout2(Obj(PreMeetingCommon(m)), m)
  {
    var v := Obj(PreMeetingCommon(m));
    assert Member(v, enableLive) == Bool(m.enableLive);
    assert Member(v, noSip) == Bool(m.noSip);
    assert Member(v, liveWebAccessControlLevel) == Int(m.liveWebAccessControlLevel);
    assert Member(v, liveUrl) == Str(m.liveUrl);
  }

  lemma ListItemLayout2(m: MeetingItem)
    ensures MeetingItemLayout2(Obj(ListItemCommon(m)), m)
  {
    var v := Obj(ListItemCommon(m));
    assert Member(v, enableLive) == Bool(m.enableLive);
    assert Member(v, noSip) == Bool(m.noSip);
    assert Member(v, liveWebAccessControlLevel) == Int(m.liveWebAccessControlLevel);
    assert Member(v, liveUrl) == Str(m.liveUrl);
  }

  lemma OptionalKeepsMeetingItem2(common: map<Key, Value>, optional: map<Key, Value>, m: MeetingItem)
    requires MeetingItemLayout2(Obj(common), m)
    requires optional.Keys <= {roleTypes, controls}
    ensures MeetingItemLayout2(Obj(common + optional), m)
  {
    MergeMembers(common, optional);
  }

  predicate MeetingItemScalars(v: Value, m: MeetingItem)
  {
    MeetingItemLayout0(v, m) && MeetingItemLayout1(v, m) && MeetingItemLayout2(v, m)
  }

  lemma ReadMeetingItemScalars(v: Value, m: MeetingItem)
    requires MeetingItemScalars(v, m)
    ensures ReadMeetingItem(v, m.setting.scene, m.setting.controls, m.roleBinds) == m
  {
  }

  /**
   * `PreMeetingRequest` and `PreMeetingResponse` pack the same tree: the
   * meeting under `param_`.
   */
  function PackPreMeeting(m: MeetingItem): Value
  {
    Obj(map[param_ := PackPreMeetingParam(m)])
  }

  /**
   * Reads a pre-meeting request (`unsignedMaxCount`) or response into
   * `prior`: role types are replaced, controls appended, role bindings merged.
   */
  function ParsePreMeeting(root: Value, prior: MeetingItem, unsignedMaxCount: bool): MeetingItem
  {
    var p := Member(root, param_);
    ReadMeetingItem(p,
      MeetingScene(AsString(Member(p, sceneCode)), ParseRoleConfigurations(Member(p, roleTypes), unsignedMaxCount)),
      prior.setting.controls + ParseControls(Member(p, controls)),
      prior.roleBinds + ParseRoleBinds(Member(p, roleBinds)))
  }

  /** `m` as parsing it into `prior` leaves it. */
  function PreMeetingInto(prior: MeetingItem, m: MeetingItem): MeetingItem
  {
    m.(setting := m.setting.(controls := prior.setting.controls + m.setting.controls),
       roleBinds := prior.roleBinds + m.roleBinds)
  }

  /** The members of a pre-meeting `param_` beyond the shared scalars. */
  predicate PreMeetingExtras(v: Value, m: MeetingItem)
  {
    && Member(v, sceneCode) == Str(m.setting.scene.code)
    && Member(v, roleBinds) == PackRoleBinds(m.roleBinds)
    && Member(v, roleTypes) == PackRoleConfigurations(m.setting.scene.roleTypes)
    && Member(v, controls) == PackControls(m.setting.controls)
  }

  lemma CommonPreMeetingExtras(m: MeetingItem)
    ensures Member(Obj(PreMeetingCommon(m)), sceneCode) == Str(m.setting.scene.code)
    ensures Member(Obj(PreMeetingCommon(m)), roleBinds) == PackRoleBinds(m.roleBinds)
  {
    assert Member(Obj(PreMeetingCommon(m)), sceneCode) == Str(m.setting.scene.code);
  }

  lemma OptionalPreMeetingExtras(common: map<Key, Value>, optional: map<Key, Value>, m: MeetingItem)
    requires Member(Obj(common), sceneCode) == Str(m.setting.scene.code)
    requires Member(Obj(common), roleBinds) == PackRoleBinds(m.roleBinds)
    requires roleTypes !in common && controls !in common
    requires optional.Keys <= {roleTypes, controls}
    requires Member(Obj(optional), roleTypes) == PackRoleConfigurations(m.setting.scene.roleTypes)
    requires Member(Obj(optional), controls) == PackControls(m.setting.controls)
    ensures PreMeetingExtras(Obj(common + optional), m)
  {
    MergeMembers(common, optional);
  }

  lemma PackPreMeetingLayout(m: MeetingItem)
    ensures MeetingItemScalars(PackPreMeetingParam(m), m) && PreMeetingExtras(PackPreMeetingParam(m), m)
  {
    var common, optional := PreMeetingCommon(m), PreMeetingOptional(m);
    PreMeetingLayout0(m);
    PreMeetingLayout1(m);
    PreMeetingLayout2(m);
    OptionalKeepsMeetingItem0(common, optional, m);
    OptionalKeepsMeetingItem1(common, optional, m);
    OptionalKeepsMeetingItem2(common, optional, m);
    CommonPreMeetingExtras(m);
    OptionalPreMeetingExtras(common, optional, m);
  }

  lemma ReadPreMeeting(root: Value, m: MeetingItem, prior: MeetingItem, unsignedMaxCount: bool)
    requires MeetingItemScalars(Member(root, param_), m) && PreMeetingExtras(Member(root, param_), m)
    requires AllUnsignedFit(m.setting.scene.roleTypes, unsignedMaxCount)
    ensures ParsePreMeeting(root, prior, unsignedMaxCount) == PreMeetingInto(prior, m)
  {
    var into := PreMeetingInto(prior, m);
    RoleConfigurationsRoundTrip(m.setting.scene.roleTypes, unsignedMaxCount);
    ControlsRoundTrip(m.setting.controls);
    RoleBindsRoundTrip(m.roleBinds);
    ReadMeetingItemScalars(Member(root, param_), into);
  }

  /**
   * Pre-meeting request (`unsignedMaxCount`) and response: every field of
   * `m` comes back, with `prior`'s controls and role bindings kept. The
   * `"cloudRecordOn "` key, trailing space included, is the same both ways.
   */
  lemma PreMeetingRoundTrip(m: MeetingItem, prior: MeetingItem, unsignedMaxCount: bool)
    requires AllUnsignedFit(m.setting.scene.roleTypes, unsignedMaxCount)
    ensures ParsePreMeeting(PackPreMeeting(m), prior, unsignedMaxCount) == PreMeetingInto(prior, m)
  {
    assert Member(PackPreMeeting(m), param_) == PackPreMeetingParam(m);
    PackPreMeetingLayout(m);
    ReadPreMeeting(PackPreMeeting(m), m, prior, unsignedMaxCount);
  }

  /** Into an item without controls or bindings, a packed pre-meeting message parses back exactly. */
  lemma FreshPreMeetingRoundTrip(m: MeetingItem, prior: MeetingItem, unsignedMaxCount: bool)
    requires AllUnsignedFit(m.setting.scene.roleTypes, unsignedMaxCount)
    requires prior.setting.controls == [] && prior.roleBinds == map[]
    ensures ParsePreMeeting(PackPreMeeting(m), prior, unsignedMaxCount) == m
  {
    PreMeetingRoundTrip(m, prior, unsignedMaxCount);
    PreMeetingIntoFresh(prior, m);
  }

  lemma PreMeetingIntoFresh(prior: MeetingItem, m: MeetingItem)
    requires prior.setting.controls == [] && prior.roleBinds == map[]
    ensures PreMeetingInto(prior, m) == m
  {
    assert prior.setting.controls + m.setting.controls == m.setting.controls;
    assert prior.roleBinds + m.roleBinds == m.roleBinds;
  }

  // ------------------------------------------------ scheduled-meeting list

  /** Reads one list element into a fresh item. */
  function ParseListItem(v: Value): MeetingItem
  {
    var sc := Member(v, scene);
    var p := Member(v, param_);
    ReadMeetingItem(v,
      MeetingScene(AsString(Member(sc, sceneCode)), ParseRoleConfigurations(Member(sc, roleTypes), false)),
      ParseControls(Member(p, controls)),
      ParseRoleBinds(Member(p, roleBinds)))
  }

  lemma ListSceneRoundTrip(s: MeetingScene)
    requires AllUnsignedFit(s.roleTypes, false)
    ensures MeetingScene(AsString(Member(PackListScene(s), sceneCode)), ParseRoleConfigurations(Member(PackListScene(s), roleTypes), false)) == s
  {
    RoleConfigurationsRoundTrip(s.roleTypes, false);
  }

  lemma ListParamRoundTrip(m: MeetingItem)
    ensures ParseControls(Member(PackListParam(m), controls)) == m.setting.controls
    ensures ParseRoleBinds(Member(PackListParam(m), roleBinds)) == m.roleBinds
  {
    ControlsRoundTrip(m.setting.controls);
    RoleBindsRoundTrip(m.roleBinds);
  }

  lemma ListItemNested(m: MeetingItem)
    ensures Member(PackListItem(m), scene) == PackListScene(m.setting.scene)
    ensures Member(PackListItem(m), param_) == PackListParam(m)
  {
    assert Member(PackListItem(m), scene) == PackListScene(m.setting.scene);
  }

  lemma ListItemRoundTrip(m: MeetingItem)
    requires AllUnsignedFit(m.setting.scene.roleTypes, false)
    ensures ParseListItem(PackListItem(m)) == m
  {
    var v := PackListItem(m);
    ListItemLayout0(m);
    ListItemLayout1(m);
    ListItemLayout2(m);
    ListItemNested(m);
    ListSceneRoundTrip(m.setting.scene);
    ListParamRoundTrip(m);
    ReadMeetingItemScalars(v, m);
  }

  /** `GetPreMeetingListResponse`: the root stays null when the list is empty. */
  function PackPreMeetingList(items: seq<MeetingItem>): Value
  {
    if items == [] then Null else Obj(map[MeetingItems := Appended(MapSeq(items, PackListItem))])
  }

  function ParsePreMeetingList(root: Value, prior: seq<MeetingItem>): seq<MeetingItem>
  {
    prior + MapSeq(Elements(Member(root, MeetingItems)), ParseListItem)
  }

  /** The list comes back in order after `prior`'s items. */
  lemma {:induction false} PreMeetingListRoundTrip(items: seq<MeetingItem>, prior: seq<MeetingItem>)
    requires forall m | m in items :: AllUnsignedFit(m.setting.scene.roleTypes, false)
    ensures ParsePreMeetingList(PackPreMeetingList(items), prior) == prior + items
  {
    forall m | m in items ensures ParseListItem(PackListItem(m)) == m {
      ListItemRoundTrip(m);
    }
    MapSeqInverse(items, PackListItem, ParseListItem);
  }
}
