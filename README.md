# restreamer-ui core in Dafny

A Dafny model of three pieces of the restreamer web interface, with proofs
about them:

- **VP9 encoder profile** (`vp9.dfy`). It covers the settings defaults
  (`init`) and the FFmpeg argument mapping (`createMapping`). That mapping is
  fourteen fixed tokens, then `-g`/`-keyint_min` unless gop is `auto`, then
  `-fps_mode` unless it is `passthrough`. It also covers `defaults`, the
  template summary, and the form's `handleChange`/`update` reports.
- **Publication dashboard** (`publication.dfy`). It covers:
  - the egress list copied from the process list;
  - the viewer and bandwidth counters;
  - the start/stop/restart orders;
  - the edit route of a service;
  - the on-demand fetch of Facebook live comments and reaction counters;
  - the per-video comment store and the list of threads shown.
- **Facebook publication service** (`facebook.dfy`). It covers:
  - the settings defaults;
  - the stream key: the last `/` segment of the created live video's stream URL;
  - the single FLV output built from that key;
  - the creation dispatch (timeline, page or nothing);
  - the list / create-event / event screens and the state each handler changes.

`js_builtins.dfy` holds the JavaScript behaviour these rely on:
- `parseInt` per ECMAScript: leading white space, sign, `0x` prefix, the
  longest digit prefix, and `NaN` when there is no digit.
- `toFixed(0)` on whole numbers.
- Template-literal printing of absent values as `undefined`.
- `split` and `join` on one separator.

`wrappers.dfy` holds `Option`, with `None` standing for an absent property.

The two components whose own fields change are classes:
- `Publication.Dashboard`: egresses, comments, reaction statistic and session.
- `Facebook.Service`: screen, selected page, event meta, busy flag,
  livestream, account pages and avatar.

Every answer of the restreamer API and of the Facebook SDK is a parameter of
the handler that awaits it.

Assuming `getLiveReactions` answers (see "## Left out"), on an error answer
`{data: [], error}` from the comment fetch the handler completes its two
updates:
- It stores `[...current, ...[]]` under the video id. This creates the key
  when it was absent. `Publication.EmptyFetchKeepsView` proves that this
  changes no stored list and no shown thread.
- It overwrites the reaction statistic: `comments` becomes 0 because the
  error answer has no summary, and `likes` becomes whatever the reaction
  fetch answers. `Publication.Dashboard.FetchComments` states this.

## Model

Four definitions carry no contract of their own. They are the vocabulary
that the rows citing their lines are stated in:
- `Vp9.Summarize` is the template of `summarize`
  (src/misc/coders/Encoders/video/VP9.js:136-138): `{name}, {bitrate} kbit/s,
  {fps} FPS, Preset: {preset}, Profile: {profile}`, with an absent field
  printed as `undefined`. `Vp9.SummarizeDefaults` and
  `Vp9.SummarizeReadsFourFields` are stated over it.
- `JsBuiltins.ParseInt` is the `parseInt` of VP9.js:44. The `JsBuiltins.ParseInt…`
  rows and `JsBuiltins.ToFixed0OfProduct` are stated over it.
- `Vp9.GopFrames` is the frame-count expression of VP9.js:44.
  `Vp9.GopPairValues`, `Vp9.GopFramesOfNumerals` and `Vp9.GopFramesOfWord` are
  stated over it.
- `Facebook.Service.CreateDisabled` is the `disabled` expression of
  src/views/Publication/Services/Facebook.js:373. `Facebook.Service.Render`
  states its value on the create screen: disabled iff busy or the title or the
  description is empty.

Seven rows below are marked "defines". Each is a reference definition of a
single JavaScript expression, and its `ensures` spell out that definition.
The properties are proved through them in the rows that cite them.

| member | source | states |
|---|---|---|
| Vp9.Init | src/misc/coders/Encoders/video/VP9.js:11-21 | the result has the four default keys plus the caller's keys; a caller's value wins; a key the caller omits takes its default |
| Vp9.InitOfEmpty | src/misc/coders/Encoders/video/VP9.js:11-21 | `init({})` is bitrate 4096, fps 25, gop 2, fps_mode passthrough and nothing else |
| Vp9.CreateMapping | src/misc/coders/Encoders/video/VP9.js:23-63 | the mapping built by pushing tokens is `MappingOf(s)`: empty global, and local is the flattened fixed options, then the GOP options, then the fps_mode option |
| Vp9.MappingPrefix | src/misc/coders/Encoders/video/VP9.js:24-39 | global is empty; local opens with `-codec:v libvpx-vp9`, then `-b:v`, `-maxrate:v` and `-bufsize:v` each with `{bitrate}k`, then `-r {fps}`, `-sc_threshold 0`, `-pix_fmt yuv420p` |
| Vp9.MappingLength | src/misc/coders/Encoders/video/VP9.js:24-55 | local has 14 tokens, +4 when gop is not `auto`, +2 when fps_mode is not `passthrough`; the length is even and one of 14, 16, 18, 20 |
| Vp9.MappingAlternates | src/misc/coders/Encoders/video/VP9.js:24-55 | the i-th option's flag at position 2i and its value at 2i+1 |
| Vp9.OptionsLength | src/misc/coders/Encoders/video/VP9.js:24-55 | seven fixed options, two more with a GOP, one more with an fps_mode; local is twice as long |
| Vp9.MappingFlags | src/misc/coders/Encoders/video/VP9.js:41-55 | the flags are the seven fixed ones, then `-g`, `-keyint_min` when gop is not `auto`, then `-fps_mode` when fps_mode is not `passthrough`, in that order |
| Vp9.ConditionalFlags | src/misc/coders/Encoders/video/VP9.js:41-55 | `-g` and `-keyint_min` occur iff gop is not `auto`; `-fps_mode` occurs iff fps_mode is not `passthrough` |
| Vp9.MappingSections | src/misc/coders/Encoders/video/VP9.js:24-55 | local is the 14 fixed tokens followed by the GOP tokens and the fps_mode tokens |
| Vp9.GopPairValues | src/misc/coders/Encoders/video/VP9.js:41-48 | with a GOP, tokens 14-17 are `-g`, the frame count, `-keyint_min`, the same frame count: the printed product of the parsed fps and gop |
| Vp9.FpsModePairValue | src/misc/coders/Encoders/video/VP9.js:50-55 | with an fps_mode, the last two tokens are `-fps_mode {fps_mode}`; with both pairs, local has 20 tokens, `-g` at 14 and `-fps_mode` at 18 |
| Vp9.GopFramesOfNumerals | src/misc/coders/Encoders/video/VP9.js:44-46 | whole-number fps and gop settings give the numeral of their product, which parses back to the product |
| Vp9.GopFramesOfWord | src/misc/coders/Encoders/video/VP9.js:44-46 | an fps or gop of `auto` gives the frame count `NaN` |
| Vp9.Defaults | src/misc/coders/Encoders/video/VP9.js:140-147 | the settings are `init({})`; the mapping is `createMapping` of them: the fixed tokens for 4096k and 25, then `-g 50 -keyint_min 50` |
| Vp9.SummarizeDefaults | src/misc/coders/Encoders/video/VP9.js:136-138 | the summary of the defaults is name, `4096 kbit/s`, `25 FPS`, and preset and profile printed as `undefined`, in that order |
| Vp9.SummarizeReadsFourFields | src/misc/coders/Encoders/video/VP9.js:136-138 | two settings that agree on bitrate, fps, preset and profile have the same summary |
| Vp9.HandleChange | src/misc/coders/Encoders/video/VP9.js:82-90 | no new settings reports `init(props.settings)` as automatic; new settings are reported as they are, not automatic; the mapping is always that of the reported settings |
| Vp9.Update | src/misc/coders/Encoders/video/VP9.js:92-99 | the reported settings hold the new value at `what` and agree with the current ones at every other key; not automatic; the mapping is theirs |
| JsBuiltins.ParseIntOfIntToString | src/misc/coders/Encoders/video/VP9.js:44 | `parseInt` reads back every printed integer |
| JsBuiltins.ToFixed0OfProduct | src/misc/coders/Encoders/video/VP9.js:44 | the printed product of two parsed numerals is the numeral of the product |
| JsBuiltins.ParseIntOfFraction | src/misc/coders/Encoders/video/VP9.js:44 | `parseInt("1.5")` is 1: only the digit prefix is read |
| JsBuiltins.ParseIntOfWord | src/misc/coders/Encoders/video/VP9.js:44 | `parseInt("auto")` is NaN |
| JsBuiltins.ParseIntOfHex | src/misc/coders/Encoders/video/VP9.js:44 | `parseInt("0x1A")` is 26 |
| JsBuiltins.JoinSplit | src/views/Publication/Services/Facebook.js:229 | joining the pieces of a split with the separator gives back the string |
| JsBuiltins.SplitJoin | src/views/Publication/Services/Facebook.js:229 | splitting a join of separator-free pieces gives back the pieces |
| JsBuiltins.LastSegmentIsMaximalSuffix | src/views/Publication/Services/Facebook.js:229-231 | the last segment is a separator-free suffix that is the whole string or follows a separator |
| JsBuiltins.LastSegmentEmpty | src/views/Publication/Services/Facebook.js:229-231 | the last segment is empty iff the string is empty or ends in the separator |
| JsBuiltins.LastSegmentAfterSeparator | src/views/Publication/Services/Facebook.js:229-231 | for `p + sep + k` with k separator-free, the last segment is k whatever p holds |
| Publication.EgressesOf | src/views/Main/Publication.js:88-106 | one record per process in the same order, each holding the process's id, name, service, index, progress, socialLiveVideoId and profileId |
| Publication.Dashboard.constructor | src/views/Main/Publication.js:62-71 | no egresses, no comments, reaction statistic 0/0, session 0/0 |
| Publication.Dashboard.Update | src/views/Main/Publication.js:88-106 | the egress list becomes the per-process records, and nothing else changes |
| Publication.Dashboard.Sessions | src/views/Main/Publication.js:108-115 | viewer becomes `current.sessions`, bandwidth becomes `current.bitrate_kbit` |
| Publication.RouteSegments | src/views/Main/Publication.js:123-131 | defines: the route's segments are empty, channel id, `publication`, service, then the printed index iff the service is not `player` |
| Publication.Dashboard.EditRoute | src/views/Main/Publication.js:123-131 | the target is those segments joined with `/`; when the channel id and service hold no `/`, splitting the target gives them back |
| Publication.RouteJoin | src/views/Main/Publication.js:123-131 | the joined segments are `/{channel}/publication/{service}` followed by `/{index}` unless the service is `player` |
| Publication.Dashboard.OrderChange | src/views/Main/Publication.js:133-148 | `start` calls Start only; `stop` calls Stop only; `restart` calls Stop and then Start only when Stop answered true; any other order makes no call and reports false; Start is never called otherwise |
| Publication.PictureUrl | src/views/Main/Publication.js:177-180 | a non-empty picture is the author's picture data URL; a present URL is taken as it is |
| Publication.WithPictures | src/views/Main/Publication.js:177-180 | defines: one stored comment per fetched one, in order, keeping its fields and adding its picture |
| Publication.CountOrZero | src/views/Main/Publication.js:185-189 | defines: a present total is taken as it is (0 included); an absent one reads as 0 |
| Publication.Cursor | src/views/Main/Publication.js:170-172 | 0 with nothing stored; otherwise the second after the last stored comment's creation second: `(since-1)*1000 <= createdMs < since*1000` |
| Publication.KeysOf | src/views/Main/Publication.js:197 | defines: the store's video ids in property order |
| Publication.Lookup | src/views/Main/Publication.js:170 | a video id has a stored list iff it is among the keys, and that list is the one stored under it |
| Publication.StoredComments | src/views/Main/Publication.js:170 | defines: the stored list for a video id, or `[]` when there is none |
| Publication.Put | src/views/Main/Publication.js:181-184 | after `{...store, [id]: list}` the id holds that list |
| Publication.PutOthers | src/views/Main/Publication.js:181-184 | no other video id's list changes |
| Publication.PutKeys | src/views/Main/Publication.js:181-184 | an existing id keeps its place among the keys; a new id goes last |
| Publication.PutKeepsUniqueKeys | src/views/Main/Publication.js:181-184 | each video id stays stored once |
| Publication.NonEmptyThreads | src/views/Main/Publication.js:197 | only non-empty lists are shown; every non-empty stored list is shown; every shown list is a stored one |
| Publication.NonEmptyThreadsAppend | src/views/Main/Publication.js:197 | the filter keeps the store's order |
| Publication.PutShownCount | src/views/Main/Publication.js:157-163 | storing a list under an id changes the number of shown threads by one at most: a shown thread leaves, a non-empty new one enters; a reset (`[]`) hides the thread |
| Publication.EmptyFetchKeepsView | src/views/Main/Publication.js:177-184 | a fetch that brings no comment, such as the `{data: []}` error answer, changes no stored list and no shown thread |
| Publication.Dashboard.FetchComments | src/views/Main/Publication.js:150-190 | a missing or empty video id or profile id changes nothing. With reset, the id's list becomes `[]` and the reactions are untouched. A rejected login changes nothing. Otherwise the id's list becomes the old list followed by the fetched comments with pictures, fetched from the cursor. The reaction statistic is overwritten with the two totals or 0. The store keeps each id once |
| Facebook.Init | src/views/Publication/Services/Facebook.js:151-161 | the result has the four default keys plus the caller's; a caller's value wins; omitted keys take their defaults |
| Facebook.InitOfEmpty | src/views/Publication/Services/Facebook.js:151-161 | the defaults are both stream keys empty, `rtmp_primary` true, `rtmp_backup` false |
| Facebook.StreamKey | src/views/Publication/Services/Facebook.js:229-231 | the key holds no `/` and is a suffix of `String(secure_stream_url)` |
| Facebook.StreamKeyEmpty | src/views/Publication/Services/Facebook.js:229-231 | the key is empty iff the URL string is empty or ends in `/` |
| Facebook.StreamKeyOfUrl | src/views/Publication/Services/Facebook.js:229-231 | a URL `…/KEY` yields KEY |
| Facebook.StreamKeyOfMissingUrl | src/views/Publication/Services/Facebook.js:229-236 | a live video without a stream URL yields the key `undefined` and an output address that is absent |
| Facebook.ChangeStreamKey | src/views/Publication/Services/Facebook.js:228-245 | only `stream_key_primary` changes, to the key; at most one output; there is one iff the key is non-empty and `rtmp_primary` is truthy, and it is the stream URL with `-f flv` |
| Facebook.WithField | src/views/Publication/Services/Facebook.js:298-302 | defines: the named field takes the value and the other keeps its own |
| Facebook.ListedPages | src/views/Publication/Services/Facebook.js:390-420 | defines: the list screen offers the timeline entry (`ME` with the avatar) first, then each account page with its picture, in order |
| Facebook.CreateTargetFor | src/views/Publication/Services/Facebook.js:262-296 | creation goes on the timeline iff the page is `ME` and the timeline call exists; on that page iff its id is truthy, the page call exists and the timeline case does not apply; a missing id creates nothing |
| Facebook.MeWithoutTimelineCall | src/views/Publication/Services/Facebook.js:262-296 | without the timeline call, the `ME` entry falls through to page creation on a page named `ME`, or to nothing |
| Facebook.Service.constructor | src/views/Publication/Services/Facebook.js:166-177 | the list screen, no page, empty title and description, not busy, no livestream, no account data, no avatar |
| Facebook.Service.NavigateScreen | src/views/Publication/Services/Facebook.js:258-260 | the screen becomes the given one |
| Facebook.Service.HandleClickPage | src/views/Publication/Services/Facebook.js:253-256 | the page becomes the clicked one and the screen becomes create-event |
| Facebook.Service.HandleBackCreateLivestream | src/views/Publication/Services/Facebook.js:247-251 | no page, empty title and description, list screen |
| Facebook.Service.HandleChangeEventMeta | src/views/Publication/Services/Facebook.js:298-302 | only the named field of the event meta changes |
| Facebook.Service.HandleCreateLivestream | src/views/Publication/Services/Facebook.js:262-296 | the target is the dispatch of the selected page; the busy flag is set iff a creation starts |
| Facebook.Service.FinishCreateLivestream | src/views/Publication/Services/Facebook.js:266-278 | an answered live video is stored, its stream key reported (only `stream_key_primary` changes; an output iff the key is non-empty and `rtmp_primary` is truthy, and that output is the live video's stream URL with `-f flv`) and the event screen shown; a failure changes neither; the busy flag is cleared either way |
| Facebook.Service.Render | src/views/Publication/Services/Facebook.js:304-420 | nothing without authentication or without a non-empty account list. The event screen shows iff it is current and the livestream has an id. The create screen shows iff it is current and a page is selected; its button is disabled iff busy or the title or the description is empty, and it shows the busy state. Authenticated, with a non-empty account list, on the list screen, the view is exactly the listed pages |

## Left out

- Rendering, components, styling, translations and snack messages are left out. `navigate` is left out too: `EditRoute` returns the target it would navigate to.
- The one-second polling timers and the mount effects are left out. `Update`, `Sessions` and `FetchComments` model one run each.
- Stale closures and overlapping requests on `$comments` are left out: each handler runs alone on the current state.
- The restreamer API and the Facebook SDK are parameters. Their answers are values, or functions of the arguments they are called with.
- `src/services/facebook.js` is assumed, not modelled. `getLiveComment` omits `since` when it is 0, and answers `{data: [], error}` on an error payload; the model reads such an answer as a page with no comments and no summary.
- `login` is modelled only by its outcome: the `loginSucceeds` parameter. A rejected login ends the fetch with no change; the login dialog itself is left out.
- `Publication.Dashboard.FetchComments`: assumes `getLiveReactions(videoId, token)` answers `{summary: {total_count}}`. `src/views/Main/Publication.js:20` imports it from `src/services/facebook.js`, but that file does not export it. As written, the call at `src/views/Main/Publication.js:174` would throw, so on the fetch path neither the comments nor the reaction statistic would be set. The model describes the handler as if the reactions call existed.
- The effect `SetFBInfo(response)` has on the token is folded into the `accessTokenFor` parameter.
- The effects `CheckAuthFb`, `GetFBAccountInfo`, `GetFBMePicture` and `onServiceDone` are left out. The account pages and the avatar are fields the model does not change.
- `handleServiceAdd`, `handleHelp` and `handleCloseSnack` are left out; they only navigate or touch the UI.
- The whole of `FacebookAds.js` and the comment views are left out; they are fetch effects and rendering.
- JavaScript numbers are modelled as unbounded integers:
  - the model does not capture precision loss above 2^53;
  - it does not capture `Infinity` from very long digit strings;
  - it does not capture the exponent notation `toFixed` prints at 1e21 and above.
- `Vp9.GopFramesOfNumerals`: states the frame count for whole-number settings within the range above only, because the model has no floating point.
- `new Date(created_time).getTime()` is left out: a comment carries its creation time as an integer number of milliseconds, `createdMs`.
- `Publication.NonEmptyThreads`: the model shows threads in insertion order. JavaScript puts keys that look like array indices (decimal numerals below 2^32 − 1) first, in numeric order. Facebook live video ids are longer than that, so they are not such keys.
- `Publication.PutKeys`: "a new id goes last" is insertion order. It is JavaScript property order for the same reason as under `Publication.NonEmptyThreads`.
- `Publication.KeysOf`: the keys are in insertion order. It is JavaScript property order for the same reason as under `Publication.NonEmptyThreads`.
- `Publication.Dashboard.OrderChange`: the API's answers are booleans. `res === true` on a non-boolean answer is not modelled.
- The VP9 module's exported metadata `coder`, `codec`, `type` and `hwaccel` are left out; only the display name `name` is modelled, as `Vp9.DisplayName`, because the summary prints it.
- Settings carry only the value types the forms use: strings for VP9, strings and booleans for the Facebook form.
- `Facebook.ChangeStreamKey`: the key is written in place into the form's settings object. The model returns the updated settings instead.
