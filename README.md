# Meeting process request layer, modelled in Dafny

The NetEase meeting desktop client runs its meeting UI in a separate
process. Other processes reach it through IPC requests.

The process handlers take those requests:
- `NEMeetingServiceProcHandlerIMP` handles start, join, leave and
  meeting-status events;
- `NEAuthServiceProcHandlerIMP` handles login, logout, account info and
  auth-status events.

Each request and response travels as JSON. The protocol classes of
`meeting_protocol.cpp` write each request's fields into a `Json::Value`
with `OnPack` and read them back with `OnParse`.

Around these sit several smaller pieces:
- the app-side `AuthManager`, which holds the signed-in account's fields and
  mirrors some of them into the settings store;
- the SDK initialisation records (`NEMAppInfo`, `NELoggerConfig`,
  `NEMeetingKitConfig`);
- the start-up normalisations of the UI process's `main`;
- the exit rule of the app's `main`;
- the Base64 codec, whose unit test fixes one test vector.

The project models these parts, one module per source file:

| module | source |
|---|---|
| `Json`, `Wrappers` | the subset of jsoncpp the protocol relies on: objects, arrays, member lookup with null defaults, `append`, `asString`/`asBool`/`asInt`/`asUInt`; and `Option` |
| `MeetingProtocol` | `meeting_protocol.cpp`: every request and response as a datatype, with its `Pack`/`Parse` pair and round-trip lemmas |
| `Callbacks` | the `std::function` callbacks of the handlers: an optional callback, and the log of every call made on it |
| `MeetingProcHandler` | `meeting_prochandler.cpp`: the option validators, the parameter-error message, and a class holding the three pending-callback slots |
| `ConfigStore` | the settings store (`ConfigManager`) as a map from key to text or number |
| `AuthProcHandler` | `auth_prochandler.cpp`: a class holding the login and logout slots, the callback logs and the store |
| `AuthManagerModel` | `auth_manager.cpp`: a class holding the account's fields as one record, plus the store |
| `SdkInitConfig` | `sdk_init_config.h`: the three records as classes with getters and setters |
| `UiMain` | `meeting/meeting-ui-sdk/main.cpp`: log-path trimming, server-address slash, translation file choice |
| `AppMain` | `meeting-app/main.cpp`: the single-instance SSO check and the exit rule |
| `Base64` | the codec of `base/util/base64`, as section 4 of RFC 4648 defines it |

The handlers are classes whose methods update their state in place. Each
such method's contract gives its whole new state in terms of specification
functions, and separate lemmas prove what the source promises about those
functions.

Things the handlers consult but do not own are method parameters:
- the room status, the login state and the host flag;
- the personal room id;
- the current auth status and account.

Work the handlers post to `Invoker` is appended to a log of task values.
Each callback invocation is appended to a log of replies.

## Model

| member | source | states |
|---|---|---|
| MeetingProtocol.MenuItemRoundTrip | meeting-qt/meeting-ipc/nem_hosting_module_protocol/protocol/meeting_protocol.cpp:69-97 | parsing a packed menu item (guid, id, titles, images, visibility, checked index) gives the item back |
| MeetingProtocol.MenuItemsRoundTrip | meeting-qt/meeting-ipc/nem_hosting_module_protocol/protocol/meeting_protocol.cpp:156-184 | a packed menu-item array parses back to the same items in the same order |
| MeetingProtocol.RoleConfigurationRoundTrip | meeting-qt/meeting-ipc/nem_hosting_module_protocol/protocol/meeting_protocol.cpp:22-36 | a role configuration (type, max count, user list) survives pack and parse when its max count fits the conversion the reader uses |
| MeetingProtocol.UnsignedMaxCountLoses | meeting-qt/meeting-ipc/nem_hosting_module_protocol/protocol/meeting_protocol.cpp:517-518 | a negative max count does not survive a reader that converts it with `asUInt` |
| MeetingProtocol.RoleConfigurationsRoundTrip | meeting-qt/meeting-ipc/nem_hosting_module_protocol/protocol/meeting_protocol.cpp:107-118 | the role-type array parses back element by element |
| MeetingProtocol.ControlsRoundTrip | meeting-qt/meeting-ipc/nem_hosting_module_protocol/protocol/meeting_protocol.cpp:120-125 | the controls array (attendee-off and type per control) parses back unchanged |
| MeetingProtocol.RoleBindsRoundTrip | meeting-qt/meeting-ipc/nem_hosting_module_protocol/protocol/meeting_protocol.cpp:127-131 | the role-bind object, one member per user id, parses back to the same map |
| MeetingProtocol.ChatroomConfigRoundTrip | meeting-qt/meeting-ipc/nem_hosting_module_protocol/protocol/meeting_protocol.cpp:152-154 | the chatroom flags parse back unchanged |
| MeetingProtocol.OptionalOptions | meeting-qt/meeting-ipc/nem_hosting_module_protocol/protocol/meeting_protocol.cpp:59-97 | the menu-item arrays are written only when non-empty, and `noCloudRecord` only by requests that carry it |
| MeetingProtocol.StartParamsOptional | meeting-qt/meeting-ipc/nem_hosting_module_protocol/protocol/meeting_protocol.cpp:22-43 | `roleTypes` and `controls` appear exactly when their lists are non-empty, holding the packed lists |
| MeetingProtocol.StartRequestRoundTrip | meeting-qt/meeting-ipc/nem_hosting_module_protocol/protocol/meeting_protocol.cpp:8-185 | parsing a packed start request into a prior object gives the request, except that controls, role binds and menu items are added to the prior's, as the parser never clears them |
| MeetingProtocol.FreshStartRoundTrip | meeting-qt/meeting-ipc/nem_hosting_module_protocol/protocol/meeting_protocol.cpp:8-185 | into a freshly constructed request the start request round-trips exactly |
| MeetingProtocol.StartReparseDuplicates | meeting-qt/meeting-ipc/nem_hosting_module_protocol/protocol/meeting_protocol.cpp:120-125 | parsing the same packed request twice into one object doubles its controls |
| MeetingProtocol.StartRequestDefaults | meeting-qt/meeting-ipc/nem_hosting_module_protocol/protocol/meeting_protocol.cpp:100-154 | an empty root parses to empty strings, an empty scene and `DefaultOptions`: every option flag false, every option number 0, both chatroom flags false, with the prior's controls, role binds and menu items kept |
| MeetingProtocol.NullOptions | meeting-qt/meeting-ipc/nem_hosting_module_protocol/protocol/meeting_protocol.cpp:133-154 | a missing `options_` member parses to `DefaultOptions`: all fourteen flags false, the three numbers 0, the chatroom flags false and the prior menus kept |
| MeetingProtocol.JoinParamsRoundTrip | meeting-qt/meeting-ipc/nem_hosting_module_protocol/protocol/meeting_protocol.cpp:188-192 | the join parameters (display name, meeting id, password, tag) parse back |
| MeetingProtocol.JoinRequestRoundTrip | meeting-qt/meeting-ipc/nem_hosting_module_protocol/protocol/meeting_protocol.cpp:188-303 | a packed join request parses to itself, with menu items added to the prior's |
| MeetingProtocol.FreshJoinRoundTrip | meeting-qt/meeting-ipc/nem_hosting_module_protocol/protocol/meeting_protocol.cpp:188-303 | into a fresh request the join request round-trips exactly |
| MeetingProtocol.JoinOmitsStartOnlyMembers | meeting-qt/meeting-ipc/nem_hosting_module_protocol/protocol/meeting_protocol.cpp:188-245 | a join request's `param_` holds exactly four members, and its options carry no `noCloudRecord` |
| MeetingProtocol.LeaveRequestRoundTrip | meeting-qt/meeting-ipc/nem_hosting_module_protocol/protocol/meeting_protocol.cpp:305-311 | the finish flag round-trips, and a missing flag reads as false |
| MeetingProtocol.StatusChangeRoundTrip | meeting-qt/meeting-ipc/nem_hosting_module_protocol/protocol/meeting_protocol.cpp:313-320 | status and code round-trip, and a missing member reads as 0 |
| MeetingProtocol.InMeetingUsersRoundTrip | meeting-qt/meeting-ipc/nem_hosting_module_protocol/protocol/meeting_protocol.cpp:343-375 | the appended user list parses back to the same users |
| MeetingProtocol.MeetingInfoRoundTrip | meeting-qt/meeting-ipc/nem_hosting_module_protocol/protocol/meeting_protocol.cpp:325-377 | the meeting info parses back, its user list added to the prior's |
| MeetingProtocol.PresetMenuItemsRoundTrip | meeting-qt/meeting-ipc/nem_hosting_module_protocol/protocol/meeting_protocol.cpp:401-430 | the preset menu items are appended, in order, to the prior list |
| MeetingProtocol.PresetMenuItemIdsRoundTrip | meeting-qt/meeting-ipc/nem_hosting_module_protocol/protocol/meeting_protocol.cpp:432-445 | the requested ids are appended to the prior list, and the member is an array exactly when ids were given |
| MeetingProtocol.PreMeetingRoundTrip | meeting-qt/meeting-ipc/nem_hosting_module_protocol/protocol/meeting_protocol.cpp:447-635 | a scheduled meeting item parses back, its controls and role binds merged into the prior's; the reader's unsigned or signed max count is a parameter |
| MeetingProtocol.FreshPreMeetingRoundTrip | meeting-qt/meeting-ipc/nem_hosting_module_protocol/protocol/meeting_protocol.cpp:447-635 | into a fresh item the scheduled meeting round-trips exactly |
| MeetingProtocol.ListItemRoundTrip | meeting-qt/meeting-ipc/nem_hosting_module_protocol/protocol/meeting_protocol.cpp:637-736 | one element of the meeting list, with its nested scene and parameters, parses back |
| MeetingProtocol.PreMeetingListRoundTrip | meeting-qt/meeting-ipc/nem_hosting_module_protocol/protocol/meeting_protocol.cpp:637-736 | the meeting list is appended, item for item, to the prior list |
| MeetingProtocol.PreMeetingListRequestRoundTrip | meeting-qt/meeting-ipc/nem_hosting_module_protocol/protocol/meeting_protocol.cpp:738-751 | the status filter is appended to the prior list |
| MeetingProtocol.PreMeetingStatusChangeRoundTrip | meeting-qt/meeting-ipc/nem_hosting_module_protocol/protocol/meeting_protocol.cpp:753-760 | the scheduled meeting's id and status round-trip, and missing members read as 0 |
| MeetingProtocol.SubscribeRequestRoundTrip | meeting-qt/meeting-ipc/nem_hosting_module_protocol/protocol/meeting_protocol.cpp:762-774 | the subscribe flag round-trips and the account ids are appended; the id array is written only when non-empty |
| Json.MapSeqInverse | meeting-qt/meeting-ipc/nem_hosting_module_protocol/protocol/meeting_protocol.cpp:343-375 | reading back an array written element by element gives each element through the reader |
| Json.MissingMemberDefaults | meeting-qt/meeting-ipc/nem_hosting_module_protocol/protocol/meeting_protocol.cpp:100-106 | a missing member reads as the empty string, false or 0 |
| Callbacks.Notify | meeting-qt/meeting-ui-sdk/ipc_handlers/meeting_prochandler.cpp:108-121 | an empty callback records nothing; a set one records exactly one reply with the given code and message |
| MeetingProcHandler.IdSetSize | meeting-qt/meeting-ui-sdk/ipc_handlers/meeting_prochandler.cpp:647-653 | the set of item ids has as many elements as the list exactly when no id repeats |
| MeetingProcHandler.CheckOptionsExDistinct | meeting-qt/meeting-ui-sdk/ipc_handlers/meeting_prochandler.cpp:647-653 | `checkOptionsEx` accepts exactly the lists whose item ids are pairwise distinct |
| MeetingProcHandler.CheckOptionsId | meeting-qt/meeting-ui-sdk/ipc_handlers/meeting_prochandler.cpp:655-669 | the loop accepts exactly when every id is a built-in menu id or at least the first injected id; injected items need the latter |
| MeetingProcHandler.CheckOptionsExMoreItems | meeting-qt/meeting-ui-sdk/ipc_handlers/meeting_prochandler.cpp:842-851 | the "more" menu is accepted exactly when it holds none of the microphone, camera, manage-participants and chat ids |
| MeetingProcHandler.CheckOptionsVisibility | meeting-qt/meeting-ui-sdk/ipc_handlers/meeting_prochandler.cpp:853-866 | accepted exactly when the items shown to the host, and those shown to others, each number at most the limit |
| MeetingProcHandler.AlwaysVisibleCounts | meeting-qt/meeting-ui-sdk/ipc_handlers/meeting_prochandler.cpp:853-866 | for always-visible items both counts are the list length, so the check is a plain length limit |
| MeetingProcHandler.TrimmedBlank | meeting-qt/meeting-ui-sdk/ipc_handlers/meeting_prochandler.cpp:868-912 | trimming leaves nothing exactly for blank text, and otherwise starts and ends on a non-space |
| MeetingProcHandler.CheckItemContent | meeting-qt/meeting-ui-sdk/ipc_handlers/meeting_prochandler.cpp:868-912 | one item passes exactly when its second title and image are both blank or both set, its title and image are non-blank, and its titles are within the length limit; injected items skip the image rules |
| MeetingProcHandler.CheckOptions | meeting-qt/meeting-ui-sdk/ipc_handlers/meeting_prochandler.cpp:868-912 | the list passes exactly when every item does |
| MeetingProcHandler.AllDigits | meeting-qt/meeting-ui-sdk/ipc_handlers/meeting_prochandler.cpp:97-103 | the loop accepts exactly the strings made only of decimal digits |
| MeetingProcHandler.MenuErrorsEmpty | meeting-qt/meeting-ui-sdk/ipc_handlers/meeting_prochandler.cpp:60-95 | the menu checks report no error exactly when the menus satisfy all the rules |
| MeetingProcHandler.CollectMoreMenuErrors | meeting-qt/meeting-ui-sdk/ipc_handlers/meeting_prochandler.cpp:61-80 | the "more" menu checks report their failures in source order, only when that menu is non-empty |
| MeetingProcHandler.CollectToolbarErrors | meeting-qt/meeting-ui-sdk/ipc_handlers/meeting_prochandler.cpp:81-95 | the toolbar checks report their failures in source order; duplicate ids are checked here only without a "more" menu |
| MeetingProcHandler.CollectMenuErrors | meeting-qt/meeting-ui-sdk/ipc_handlers/meeting_prochandler.cpp:60-95 | the "more" menu errors followed by the toolbar errors |
| MeetingProcHandler.CollectStartErrors | meeting-qt/meeting-ui-sdk/ipc_handlers/meeting_prochandler.cpp:59-107 | the menu errors, then the password error when a non-empty password is shorter than 4 or not all digits |
| MeetingProcHandler.JoinLinesSnoc | meeting-qt/meeting-ui-sdk/ipc_handlers/meeting_prochandler.cpp:111-119 | joining one more line adds a newline and the line |
| MeetingProcHandler.InvalidParamsJoined | meeting-qt/meeting-ui-sdk/ipc_handlers/meeting_prochandler.cpp:109-121 | the message is the header and the errors joined by newlines, ending in the last error with no trailing newline |
| MeetingProcHandler.BuildInvalidParamsMessage | meeting-qt/meeting-ui-sdk/ipc_handlers/meeting_prochandler.cpp:111-119 | the loop builds exactly that message |
| MeetingProcHandler.SplitJoinLines | meeting-qt/meeting-ui-sdk/ipc_handlers/meeting_prochandler.cpp:111-119 | lines without newlines are recovered by splitting the joined message |
| MeetingProcHandler.StartOutcomeSpec | meeting-qt/meeting-ui-sdk/ipc_handlers/meeting_prochandler.cpp:59-144 | a start request is rejected with a parameter error when a check fails, answered as already in a meeting when the room is not idle, rejected when its meeting id is not the personal one, and otherwise proceeds |
| MeetingProcHandler.BadPasswordReported | meeting-qt/meeting-ui-sdk/ipc_handlers/meeting_prochandler.cpp:104-106 | a bad password always yields a parameter error whose message ends with the password line |
| MeetingProcHandler.JoinOutcomeSpec | meeting-qt/meeting-ui-sdk/ipc_handlers/meeting_prochandler.cpp:693-756 | a join request is rejected on a failed menu check, answered as already in a meeting when the room is not idle, and otherwise proceeds; there is no password check |
| MeetingProcHandler.LeaveTaskFailure | meeting-qt/meeting-ui-sdk/ipc_handlers/meeting_prochandler.cpp:273-304 | a leave fails when the room is not connected; ending the meeting also needs a login and the host role |
| MeetingProcHandler.ConvertExtendedCode | meeting-qt/meeting-ui-sdk/ipc_handlers/meeting_prochandler.cpp:571-585 | 0 and 200 become success, 3100 becomes already-in-meeting, other codes pass through |
| MeetingProcHandler.StatusResolutionSpec | meeting-qt/meeting-ui-sdk/ipc_handlers/meeting_prochandler.cpp:587-645 | only connected, ended and connect-failed answer callbacks; the five silent reasons answer start and join with success and skip leave |
| MeetingProcHandler.MeetingServiceHandler.constructor | meeting-qt/meeting-ui-sdk/ipc_handlers/meeting_prochandler.cpp:23-26 | all slots empty and all logs empty |
| MeetingProcHandler.MeetingServiceHandler.OnStartMeeting | meeting-qt/meeting-ui-sdk/ipc_handlers/meeting_prochandler.cpp:28-234 | a pending start is refused as a frequent operation; otherwise the outcome decides the reply, and only a proceeding request fills the slot and posts the creation task |
| MeetingProcHandler.MeetingServiceHandler.JoinMeeting | meeting-qt/meeting-ui-sdk/ipc_handlers/meeting_prochandler.cpp:671-840 | the same for joining, with the join slot |
| MeetingProcHandler.MeetingServiceHandler.OnAnonymousJoinMeeting | meeting-qt/meeting-ui-sdk/ipc_handlers/meeting_prochandler.cpp:243-260 | posts the anonymous login and changes nothing else |
| MeetingProcHandler.MeetingServiceHandler.AnonymousLoginFinished | meeting-qt/meeting-ui-sdk/ipc_handlers/meeting_prochandler.cpp:248-256 | a failed login passes its code and message to the callback and changes nothing else; a successful one has exactly the effect of `JoinMeeting`: the busy reply, the refusal given by `JoinOutcome`, or the stored join slot and posted join task |
| MeetingProcHandler.MeetingServiceHandler.OnLeaveMeeting | meeting-qt/meeting-ui-sdk/ipc_handlers/meeting_prochandler.cpp:262-273 | a pending leave is refused as frequent; otherwise the slot is filled and the leave task posted |
| MeetingProcHandler.MeetingServiceHandler.RunLeaveTask | meeting-qt/meeting-ui-sdk/ipc_handlers/meeting_prochandler.cpp:273-304 | a failed leave answers and empties the slot; a successful one asks the engine to leave or end |
| MeetingProcHandler.MeetingServiceHandler.OnMeetingStatusChanged | meeting-qt/meeting-ui-sdk/ipc_handlers/meeting_prochandler.cpp:587-645 | a resolving status answers start, join and (unless silent) leave once each, in that order, and empties them |
| ConfigStore.TextOr | meeting-qt/meeting-app/modules/auth_manager.cpp:11-15 | a missing key reads as "", text as itself, a number as its decimal text |
| AuthProcHandler.FoldedPointwise | meeting-qt/meeting-ui-sdk/ipc_handlers/auth_prochandler.cpp:49-50 | folding keeps the length and folds each character |
| AuthProcHandler.SameIgnoringCaseSpec | meeting-qt/meeting-ui-sdk/ipc_handlers/auth_prochandler.cpp:49-50 | two strings compare equal ignoring case exactly when they have the same length and agree character by character after folding |
| AuthProcHandler.FoldedIdempotent | meeting-qt/meeting-ui-sdk/ipc_handlers/auth_prochandler.cpp:49-50 | folding twice is folding once |
| AuthProcHandler.SameIgnoringCaseFolded | meeting-qt/meeting-ui-sdk/ipc_handlers/auth_prochandler.cpp:49-50 | folding either side first does not change the comparison |
| AuthProcHandler.BusyLoginReply | meeting-qt/meeting-ui-sdk/ipc_handlers/auth_prochandler.cpp:38-63 | an idle client proceeds; a busy one answers success only when logged in with the same account and token (ignoring case), and otherwise the login failure |
| AuthProcHandler.RepeatedLoginSucceeds | meeting-qt/meeting-ui-sdk/ipc_handlers/auth_prochandler.cpp:44-53 | logging in again with the current credentials succeeds at once |
| AuthProcHandler.BusyLoginReplyIgnoresCase | meeting-qt/meeting-ui-sdk/ipc_handlers/auth_prochandler.cpp:44-53 | the answer depends only on the folded credentials |
| AuthProcHandler.BusyLoginOtherAccountFails | meeting-qt/meeting-ui-sdk/ipc_handlers/auth_prochandler.cpp:44-57 | a busy client fails with the login-failure text when it is not logged in, or when the account id differs from the current one in length or in some letter ignoring case, or the token differs ignoring case |
| AuthProcHandler.CleanedLogin | meeting-qt/meeting-ui-sdk/ipc_handlers/auth_prochandler.cpp:132-137 | the cleanup writes the unknown login type and empty app key, account id and token, and keeps every other key |
| AuthProcHandler.CleanedLoginIdempotent | meeting-qt/meeting-ui-sdk/ipc_handlers/auth_prochandler.cpp:132-137 | cleaning twice is cleaning once |
| AuthProcHandler.StatusResponse | meeting-qt/meeting-ui-sdk/ipc_handlers/auth_prochandler.cpp:142-201 | login failures answer the pending callbacks with the error code and a non-empty message, the given one when present; login and logout success answer with success; other statuses answer nothing |
| AuthProcHandler.NotifyInfo | meeting-qt/meeting-ui-sdk/ipc_handlers/auth_prochandler.cpp:101-119 | an account-info callback records one reply when set and none when empty |
| AuthProcHandler.AccountInfoAnsweredTwice | meeting-qt/meeting-ui-sdk/ipc_handlers/auth_prochandler.cpp:101-119 | as written, a client that is not logged in gets two account-info replies: the failure, then a success with the account info filled from the current auth info |
| AuthProcHandler.AccountInfoReplies | meeting-qt/meeting-ui-sdk/ipc_handlers/auth_prochandler.cpp:101-119 | the corrected task answers once: the failure when not logged in, otherwise success with the filled account info |
| AuthProcHandler.AccountInfoCorrectionAgrees | meeting-qt/meeting-ui-sdk/ipc_handlers/auth_prochandler.cpp:101-119 | the corrected answer is the as-written one when logged in, and its first reply otherwise |
| AuthProcHandler.AuthServiceHandler.constructor | meeting-qt/meeting-ui-sdk/ipc_handlers/auth_prochandler.cpp:11-14 | empty slots and logs, the given store, no connections |
| AuthProcHandler.AuthServiceHandler.OnLoginWithNEMeeting | meeting-qt/meeting-ui-sdk/ipc_handlers/auth_prochandler.cpp:16-24 | stores the callback in the login slot and posts the password login |
| AuthProcHandler.AuthServiceHandler.OnLoginWithSsoToken | meeting-qt/meeting-ui-sdk/ipc_handlers/auth_prochandler.cpp:26-30 | stores the callback and posts the SSO login |
| AuthProcHandler.AuthServiceHandler.OnTryAutoLogin | meeting-qt/meeting-ui-sdk/ipc_handlers/auth_prochandler.cpp:32-36 | stores the callback and posts the automatic login |
| AuthProcHandler.AuthServiceHandler.OnLogin | meeting-qt/meeting-ui-sdk/ipc_handlers/auth_prochandler.cpp:38-63 | a busy client answers at once as the busy-login rule says; an idle one fills the login slot and posts the login |
| AuthProcHandler.AuthServiceHandler.OnLoginWithAppKey | meeting-qt/meeting-ui-sdk/ipc_handlers/auth_prochandler.cpp:65-91 | behaves as a login with the given account and token |
| AuthProcHandler.AuthServiceHandler.OnLoginAnonymous | meeting-qt/meeting-ui-sdk/ipc_handlers/auth_prochandler.cpp:93-95 | does nothing |
| AuthProcHandler.AuthServiceHandler.OnLogout | meeting-qt/meeting-ui-sdk/ipc_handlers/auth_prochandler.cpp:123-140 | an idle client answers success at once; otherwise the store is cleaned when asked, the slot filled and the logout posted |
| AuthProcHandler.AuthServiceHandler.OnGetAccountInfo | meeting-qt/meeting-ui-sdk/ipc_handlers/auth_prochandler.cpp:97-121 | posts the account-info task and changes nothing else |
| AuthProcHandler.AuthServiceHandler.RunAccountInfoTask | meeting-qt/meeting-ui-sdk/ipc_handlers/auth_prochandler.cpp:99-120 | records exactly the corrected account-info replies |
| AuthProcHandler.AuthServiceHandler.OnAuthStatusChanged | meeting-qt/meeting-ui-sdk/ipc_handlers/auth_prochandler.cpp:142-201 | answers and empties the login or logout slot as the status response says, counts expiry connections on success and kick-outs |
| AuthProcHandler.LoginThenResolve | meeting-qt/meeting-ui-sdk/ipc_handlers/auth_prochandler.cpp:38-201 | an idle login followed by its resolving status answers the caller exactly once with the status response and leaves both slots empty |
| AuthManagerModel.Member | meeting-qt/meeting-app/modules/auth_manager.cpp:77-100 | a missing response member reads as "" |
| AuthManagerModel.Mid | meeting-qt/meeting-app/modules/auth_manager.cpp:322-328 | `QString::mid` with a length: at most n characters from the position, "" past the end |
| AuthManagerModel.MidFrom | meeting-qt/meeting-app/modules/auth_manager.cpp:322-328 | `QString::mid` without a length: the rest of the string from the position |
| AuthManagerModel.PrettyMeetingIdShape | meeting-qt/meeting-app/modules/auth_manager.cpp:322-328 | the pretty id is the first three characters, a dash, the next three, a dash, the rest |
| AuthManagerModel.PrettyMeetingIdRoundTrip | meeting-qt/meeting-app/modules/auth_manager.cpp:322-328 | for ids of six or more characters, the pretty id is two longer, has dashes at 3 and 7, and removing them gives the id back |
| AuthManagerModel.PrettyOfEmptyId | meeting-qt/meeting-app/modules/auth_manager.cpp:322-328 | the empty id prettifies to "--" |
| AuthManagerModel.LoggedOut | meeting-qt/meeting-app/modules/auth_manager.cpp:175-200 | logout clears every account field, the phone number, personal ids and account apps among them, and the pretty id becomes that of "" |
| AuthManagerModel.LoggedOutForgets | meeting-qt/meeting-app/modules/auth_manager.cpp:175-200 | after logout no trace of the previous account remains |
| AuthManagerModel.AuthReset | meeting-qt/meeting-app/modules/auth_manager.cpp:259-270 | the reset clears the nine user and account fields and keeps the meeting ids, display settings, limits and apps |
| AuthManagerModel.AuthResetLaws | meeting-qt/meeting-app/modules/auth_manager.cpp:175-270 | the reset is idempotent, is absorbed by logout, and changes nothing after logout |
| AuthManagerModel.LoginAccepted | meeting-qt/meeting-app/modules/auth_manager.cpp:272-289 | a successful login stores the user uuid, token, nickname and meeting numbers from the response and nothing else |
| AuthManagerModel.HttpLoginAccepted | meeting-qt/meeting-app/modules/auth_manager.cpp:77-100 | a successful HTTP login stores the eight named response members and nothing else |
| AuthManagerModel.AuthManager.constructor | meeting-qt/meeting-app/modules/auth_manager.cpp:11-15 | the phone number is read from the store, everything else is empty |
| AuthManagerModel.AuthManager.SetPhoneNumber | meeting-qt/meeting-app/modules/auth_manager.cpp:457-461 | sets the field and the stored copy, keeping them in sync |
| AuthManagerModel.AuthManager.SetPersonalMeetingId | meeting-qt/meeting-app/modules/auth_manager.cpp:322-328 | sets the id and its pretty form |
| AuthManagerModel.AuthManager.Logout | meeting-qt/meeting-app/modules/auth_manager.cpp:175-200 | the fields become the logged-out ones and the five cached login settings and the stored phone number are emptied |
| AuthManagerModel.AuthManager.ResetAuthInfo | meeting-qt/meeting-app/modules/auth_manager.cpp:259-270 | the fields are reset and the stored phone number emptied |
| AuthManagerModel.AuthManager.OnLoginCallback | meeting-qt/meeting-app/modules/auth_manager.cpp:272-289 | a zero code accepts the login; any other code only empties the phone number, field and stored copy |
| AuthManagerModel.AuthManager.LoginToHttpFinished | meeting-qt/meeting-app/modules/auth_manager.cpp:77-100 | code 200 accepts the login and stores its credentials; a failed token login empties the stored user id and token; the phone stays in sync |
| SdkInitConfig.AppInfo.constructor | meeting-qt/meeting/meeting-ipc/nem_sdk_interface/sdk_init_config.h:25-89 | all four strings empty |
| SdkInitConfig.AppInfo.SetSdkPath | meeting-qt/meeting/meeting-ipc/nem_sdk_interface/sdk_init_config.h:25-89 | sets the SDK path, other fields unchanged |
| SdkInitConfig.AppInfo.SetOrganizationName | meeting-qt/meeting/meeting-ipc/nem_sdk_interface/sdk_init_config.h:25-89 | sets the organisation name, other fields unchanged |
| SdkInitConfig.AppInfo.SetApplicationName | meeting-qt/meeting/meeting-ipc/nem_sdk_interface/sdk_init_config.h:25-89 | sets the application name, other fields unchanged |
| SdkInitConfig.AppInfo.SetProductName | meeting-qt/meeting/meeting-ipc/nem_sdk_interface/sdk_init_config.h:25-89 | sets the product name, other fields unchanged |
| SdkInitConfig.LoggerConfig.constructor | meeting-qt/meeting/meeting-ipc/nem_sdk_interface/sdk_init_config.h:105-142 | empty path and the Info level |
| SdkInitConfig.LoggerConfig.SetLoggerPath | meeting-qt/meeting/meeting-ipc/nem_sdk_interface/sdk_init_config.h:105-142 | sets the path, level unchanged |
| SdkInitConfig.LoggerConfig.SetLoggerLevel | meeting-qt/meeting/meeting-ipc/nem_sdk_interface/sdk_init_config.h:105-142 | sets the level, path unchanged |
| SdkInitConfig.MeetingKitConfig.constructor | meeting-qt/meeting/meeting-ipc/nem_sdk_interface/sdk_init_config.h:278-286 | empty domain and every other field at its default: keep-alive 10, automatic language, false flags, empty strings |
| SdkInitConfig.MeetingKitConfig.WithDomain | meeting-qt/meeting/meeting-ipc/nem_sdk_interface/sdk_init_config.h:158-166 | the given domain and every other field at its default |
| SdkInitConfig.MeetingKitConfig.SetAppKey | meeting-qt/meeting/meeting-ipc/nem_sdk_interface/sdk_init_config.h:186 | sets the app key, nothing else changes |
| SdkInitConfig.MeetingKitConfig.SetDomain | meeting-qt/meeting/meeting-ipc/nem_sdk_interface/sdk_init_config.h:199 | sets the domain, nothing else changes |
| SdkInitConfig.MeetingKitConfig.SetUseAssetServerConfig | meeting-qt/meeting/meeting-ipc/nem_sdk_interface/sdk_init_config.h:214 | sets the flag, nothing else changes |
| SdkInitConfig.MeetingKitConfig.SetKeepAliveInterval | meeting-qt/meeting/meeting-ipc/nem_sdk_interface/sdk_init_config.h:229 | stores any interval unclamped, nothing else changes |
| SdkInitConfig.MeetingKitConfig.SetRunAdmin | meeting-qt/meeting/meeting-ipc/nem_sdk_interface/sdk_init_config.h:249 | sets the flag, nothing else changes |
| SdkInitConfig.MeetingKitConfig.SetLanguage | meeting-qt/meeting/meeting-ipc/nem_sdk_interface/sdk_init_config.h:256 | sets the language, nothing else changes |
| SdkInitConfig.MeetingKitConfig.SetServerUrl | meeting-qt/meeting/meeting-ipc/nem_sdk_interface/sdk_init_config.h:269 | sets the server address, nothing else changes |
| SdkInitConfig.ConfigureLogger | meeting-qt/meeting/meeting-ipc/nem_sdk_interface/sdk_init_config.h:235 | writing through the returned logger pointer changes what the config reports and nothing else of it |
| UiMain.StripLogPath | meeting-qt/meeting/meeting-ui-sdk/main.cpp:99-102 | the result is a prefix of the path, does not end in a separator, and only separators were removed |
| UiMain.ServerUrlWithSlash | meeting-qt/meeting/meeting-ui-sdk/main.cpp:131-134 | an empty address stays empty; any other ends in exactly the one slash it had or gained |
| UiMain.ServerUrlWithSlashIdempotent | meeting-qt/meeting/meeting-ui-sdk/main.cpp:131-134 | applying the rule twice is applying it once |
| UiMain.ReplaceDashes | meeting-qt/meeting/meeting-ui-sdk/main.cpp:142 | same length, every dash an underscore, every other character kept |
| UiMain.BeforeFirstDash | meeting-qt/meeting/meeting-ui-sdk/main.cpp:154-157 | the longest dash-free prefix |
| UiMain.TranslationFile | meeting-qt/meeting/meeting-ui-sdk/main.cpp:141-161 | the primary file name when present, otherwise the base-language one |
| UiMain.TranslationFilesAgreeWithoutDash | meeting-qt/meeting/meeting-ui-sdk/main.cpp:141-161 | a language without a dash names the same file either way |
| UiMain.FallbackIsBaseOfPrimary | meeting-qt/meeting/meeting-ui-sdk/main.cpp:141-161 | the fallback language is the primary one cut at its first underscore |
| UiMain.ChineseTranslationFiles | meeting-qt/meeting/meeting-ui-sdk/main.cpp:141-161 | "zh-CN" gives "meeting-ui-sdk_zh_CN.qm", falling back to "meeting-ui-sdk_zh.qm" |
| AppMain.ExitPlanFor | meeting-qt/meeting-app/main.cpp:112-129 | a clean exit during a meeting (status 3 or 4) records it; 773 launches the updater; anything else records a normal exit |
| AppMain.Launcher.constructor | meeting-qt/meeting-app/main.cpp:46-50 | not listening, nothing forwarded, no updater |
| AppMain.Launcher.Start | meeting-qt/meeting-app/main.cpp:46-59 | an SSO launch with another instance running forwards its arguments and exits early; otherwise the instance listens |
| AppMain.Launcher.OnExit | meeting-qt/meeting-app/main.cpp:112-129 | records the time and status and exits 0, or launches the updater and exits 0, or records status 1 and exits with the loop's code |
| Base64.CharOf | meeting-qt/setup/src/base/util/base64_unittest.cpp:23-25 | no sextet encodes to the padding character |
| Base64.IndexOf | meeting-qt/setup/src/base/util/base64_unittest.cpp:27-29 | a decoded character's index encodes back to it |
| Base64.IndexOfCharOf | meeting-qt/setup/src/base/util/base64_unittest.cpp:23-29 | every sextet's character decodes back to the sextet |
| Base64.EncodeLength | meeting-qt/setup/src/base/util/base64_unittest.cpp:23-25 | four characters per started group of three bytes |
| Base64.DecodeQuad | meeting-qt/setup/src/base/util/base64_unittest.cpp:27-29 | a quantum decodes to one to three bytes, fewer than three only as the padded last quantum |
| Base64.DecodeLength | meeting-qt/setup/src/base/util/base64_unittest.cpp:27-29 | accepted text is a whole number of quanta and decodes to at most three bytes each |
| Base64.DecodeEncode | meeting-qt/setup/src/base/util/base64_unittest.cpp:23-29 | decoding an encoding gives the bytes back |
| Base64.EncodePadding | meeting-qt/setup/src/base/util/base64_unittest.cpp:23-25 | an encoding ends in "==", "=" or nothing as the length is 1, 2 or 0 modulo 3, and has no other '=' |
| Base64.HelloWorldEncodes | meeting-qt/setup/src/base/util/base64_unittest.cpp:16-25 | "hello world" encodes to "aGVsbG8gd29ybGQ=" |
| Base64.HelloWorldDecodes | meeting-qt/setup/src/base/util/base64_unittest.cpp:16-29 | "aGVsbG8gd29ybGQ=" decodes to "hello world" |

## Left out

- The Base64 implementation `base/util/base64.cc` is not part of this model. The codec follows section 4 of RFC 4648, with the standard alphabet and '=' padding.
- `Base64Encode` and `Base64Decode` report success with a bool. In the model encoding always succeeds and a failed decode is `None`.
- Base64.Decode: accepts non-zero pad bits in the last quantum. RFC 4648 allows a decoder to reject them; the test vector does not settle the question.
- The order in which the duplicate-id check of `checkOptionsEx` visits items is not modelled; only its verdict is.
- MeetingProcHandler.CheckOptionsEx: assumes that `operator<` on `NEMeetingMenuItem`, which orders the `std::set` it inserts into, compares `itemId` alone. That operator is not part of this model; if it compared more fields, items sharing an id would not count as duplicates.
- Menu ids, visibility values, error codes and other enum values from headers outside this model are constants whose values are left open. Only their distinctness where the source compares them is used.
- Callbacks invoked without a null check throw when the `std::function` is empty. This applies to the leave task, the busy branch of `onLogin` and the idle branch of `onLogout`. The model treats those calls as guarded.
- AuthProcHandler.SameIgnoringCase: folds ASCII letters only, not the full Unicode case folding of `QString::compare` with `Qt::CaseInsensitive`.
- MeetingProcHandler.IsSpace: covers the Latin-1 whitespace of `QChar::isSpace`, not other Unicode spaces.
- Title lengths are counted in characters. The source counts `wchar_t` units after UTF-8 decoding, which on Windows are UTF-16 units, and invalid UTF-8 throws there.
- Only the leave task and the account-info task of the `Invoker` lambdas are modelled; the other posted lambdas call into the meeting engine and HTTP services, which are not part of this model.
- Qt signals are not modelled. The auth handler keeps only a count of the expiry connections it makes and of the kick-outs it handles.
- `GetMeetingInfoRequest` packs and parses nothing, so it has no model.
- Integer widths are not modelled, except the keep-alive interval as a 32-bit `int`. `asUInt` applied to a negative number is modelled as a parameter of the round trip; the jsoncpp exception it raises is not.
- jsoncpp's textual JSON writer and reader are not modelled; the model stops at `Json::Value`.
- Json.Key: a `UserKey` and a fixed key with the same text are different keys, so a tree may hold two members with one name, and `MeetingProtocol.ParseRoleBinds` skips a role binding whose user id is spelled like a fixed key (for example "meetingId"), which jsoncpp's `getMemberNames` would return. No packed message builds such a tree.
- Json.Elements: gives no elements for an object, whereas a jsoncpp range-for over an object visits its member values. This differs only for foreign input that sends an object where an array is expected.
- Conversions that jsoncpp refuses with an exception give the default value in the model.
- The UI process's start-up wait loop, its Qt application plumbing, its logging and the file system are not modelled. Whether a translation file exists is given as a set of available names.
- The login handlers have no frequent-operation guard in the code; the model follows the code.
- `resetAuthInfo` calls `setAPaasAppKey("")`, whose body stores nothing. Only nine fields are really cleared, and the model clears nine.
- The account's application list is modelled as a count only.
- Response members that are not strings read as "" in `AuthManagerModel.Member`.
- The initial value of the pretty meeting id is taken to be "".
- The clock and the updater of the app's `main` are a parameter and a flag.

## Findings

| source | as written | input that shows it | evidently intended | confidence | as-written member | corrected member |
|---|---|---|---|---|---|---|
| meeting-qt/meeting-ui-sdk/ipc_handlers/auth_prochandler.cpp:101-119 | when the client is not logged in, the account-info task calls the callback with the failure and then falls through to call it again with success and the account info filled from the current auth info | any auth status other than login succeeded, with a callback set | answer once: the failure when not logged in, otherwise success with the account info | not executed | AuthProcHandler.AccountInfoAnsweredTwice | AuthProcHandler.AccountInfoReplies |
