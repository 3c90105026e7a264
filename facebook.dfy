/**
 * The Facebook publication service form: its settings defaults, the stream
 * key taken from a created live video's stream URL and the single FLV output
 * built from it, and the three screens (page list, event creation, created
 * event) with the state each handler changes.
 *
 * The restreamer's Facebook calls are parameters: whether the timeline and
 * page creation calls exist, and the live video a creation answers.
 */
module Facebook {
  import opened Wrappers
  import opened JsBuiltins

  // ---------------------------------------------------------------------
  // Settings
  // ---------------------------------------------------------------------

  /** A setting value: the form keeps strings and booleans. */
  datatype Value = Str(s: string) | Flag(b: bool)

  type Settings = map<string, Value>

  /** JavaScript truthiness of a possibly absent setting. */
  predicate IsTruthy(v: Option<Value>)
  {
    match v
    case None => false
    case Some(Str(s)) => s != ""
    case Some(Flag(b)) => b
  }

  function Get(s: Settings, key: string): Option<Value>
  {
    if key in s then Some(s[key]) else None
  }

  const StreamKeyPrimary := "stream_key_primary"
  const StreamKeyBackup := "stream_key_backup"
  const RtmpPrimary := "rtmp_primary"
  const RtmpBackup := "rtmp_backup"

  const DefaultSettings: Settings :=
    map[StreamKeyPrimary := Str(""), StreamKeyBackup := Str(""), RtmpPrimary := Flag(true), RtmpBackup := Flag(false)]

  /** `init`: the caller's settings spread over the defaults; the caller wins and extra keys are kept. */
  function Init(settings: Settings): (s: Settings)
    ensures s.Keys == DefaultSettings.Keys + settings.Keys
    ensures forall k :: k in settings ==> s[k] == settings[k]
    ensures forall k :: k in DefaultSettings && k !in settings ==> s[k] == DefaultSettings[k]
  {
    DefaultSettings + settings
  }

  lemma InitOfEmpty()
    ensures Get(Init(map[]), StreamKeyPrimary) == Some(Str("")) && Get(Init(map[]), StreamKeyBackup) == Some(Str(""))
    ensures Get(Init(map[]), RtmpPrimary) == Some(Flag(true)) && Get(Init(map[]), RtmpBackup) == Some(Flag(false))
    ensures IsTruthy(Get(Init(map[]), RtmpPrimary))
  {
  }

  // ---------------------------------------------------------------------
  // Stream key and output
  // ---------------------------------------------------------------------

  /** A live video as the creation call answers it. */
  datatype Livestream = Livestream(id: Option<string>, secureStreamUrl: Option<string>)

  /** An output the form reports: `address` is the stream URL as given, possibly absent. */
  datatype Output = Output(address: Option<string>, options: seq<string>)

  const FlvOptions: seq<string> := ["-f", "flv"]

  /** `String(live?.secure_stream_url)` */
  function StreamUrlString(live: Option<Livestream>): string
  {
    match live
    case None => Template(None)
    case Some(l) => Template(l.secureStreamUrl)
  }

  /** `live?.secure_stream_url` */
  function StreamAddress(live: Option<Livestream>): Option<string>
  {
    match live
    case None => None
    case Some(l) => l.secureStreamUrl
  }

  /** The stream key: the last `/`-separated segment of the stream URL string. */
  function StreamKey(live: Option<Livestream>): (key: string)
    ensures '/' !in key
    ensures |key| <= |StreamUrlString(live)|
    ensures key == StreamUrlString(live)[|StreamUrlString(live)| - |key|..]
  {
    LastSegmentIsMaximalSuffix(StreamUrlString(live), '/');
    LastSegment(StreamUrlString(live), '/')
  }

  /**
   * `handleChangeStreamKey`: stores the key as `stream_key_primary` and
   * builds the output list handed to `onChange`.
   */
  method ChangeStreamKey(settings: Settings, live: Option<Livestream>) returns (outputs: seq<Output>, updated: Settings)
    ensures updated == settings[StreamKeyPrimary := Str(StreamKey(live))]
    ensures forall k :: k != StreamKeyPrimary ==> Get(updated, k) == Get(settings, k)
    ensures |outputs| <= 1
    ensures outputs != [] <==> StreamKey(live) != "" && IsTruthy(Get(settings, RtmpPrimary))
    ensures outputs != [] ==> outputs[0] == Output(StreamAddress(live), FlvOptions)
  {
    var key := StreamKey(live);
    updated := settings[StreamKeyPrimary := Str(key)];
    assert StreamKeyPrimary != RtmpPrimary;
    assert Get(updated, RtmpPrimary) == Get(settings, RtmpPrimary);
    outputs := [];
    var primary := Output(StreamAddress(live), FlvOptions);
    if |key| != 0 && IsTruthy(Get(updated, RtmpPrimary)) {
      outputs := outputs + [primary];
    }
  }

  /** The key is empty exactly when the URL string is empty or ends in `/`. */
  lemma StreamKeyEmpty(live: Option<Livestream>)
    ensures StreamKey(live) == "" <==>
      StreamUrlString(live) == "" || StreamUrlString(live)[|StreamUrlString(live)| - 1] == '/'
  {
    LastSegmentEmpty(StreamUrlString(live), '/');
  }

  /** A URL `…/KEY` yields KEY, whatever precedes the last slash. */
  lemma StreamKeyOfUrl(id: Option<string>, prefix: string, key: string)
    requires '/' !in key
    ensures StreamKey(Some(Livestream(id, Some(prefix + "/" + key)))) == key
  {
    LastSegmentAfterSeparator(prefix, key, '/');
  }

  /**
   * A live video without a stream URL reads as the string "undefined": the
   * key is "undefined" and, with the primary output on, an output without
   * an address is reported.
   */
  lemma StreamKeyOfMissingUrl(id: Option<string>)
    ensures StreamKey(Some(Livestream(id, None))) == "undefined"
    ensures StreamAddress(Some(Livestream(id, None))) == None
  {
    StreamKeyOfUrlWithoutSlash(Some(Livestream(id, None)));
  }

  lemma StreamKeyOfUrlWithoutSlash(live: Option<Livestream>)
    requires '/' !in StreamUrlString(live)
    ensures StreamKey(live) == StreamUrlString(live)
  {
    LastSegmentIsMaximalSuffix(StreamUrlString(live), '/');
  }

  // ---------------------------------------------------------------------
  // Pages and creation
  // ---------------------------------------------------------------------

  /** The id of the "publish on my timeline" entry. */
  const PageMeId := "ME"

  datatype Screen = ListScreen | CreateEventScreen | EventScreen

  /** A selected page; `{}` is the page with neither id nor image. */
  datatype Page = Page(id: Option<string>, image: Option<string>)

  const NoPage := Page(None, None)

  /** A page of the account, as `GetFBAccountInfo` lists it. */
  datatype AccountPage = AccountPage(id: string, name: string, pictureUrl: Option<string>)

  datatype EventMeta = EventMeta(title: string, description: string)

  const EmptyMeta := EventMeta("", "")

  /** The two named inputs of the event form. */
  datatype MetaField = Title | Description

  /** `{...eventMeta, [name]: value}` */
  function WithField(meta: EventMeta, name: MetaField, value: string): (m: EventMeta)
    ensures name == Title ==> m.title == value && m.description == meta.description
    ensures name == Description ==> m.description == value && m.title == meta.title
  {
    match name
    case Title => meta.(title := value)
    case Description => meta.(description := value)
  }

  /** The page the timeline entry selects. */
  function MePage(avatar: string): Page
  {
    Page(Some(PageMeId), Some(avatar))
  }

  /** The page an account entry selects. */
  function PageOf(p: AccountPage): Page
  {
    Page(Some(p.id), p.pictureUrl)
  }

  /** The clickable entries of the list screen: the timeline first, then each account page in order. */
  function ListedPages(avatar: string, pages: seq<AccountPage>): (r: seq<Page>)
    ensures |r| == |pages| + 1
    ensures r[0] == MePage(avatar)
    ensures forall i :: 0 <= i < |pages| ==> r[i + 1] == PageOf(pages[i])
  {
    var rest := seq(|pages|, i requires 0 <= i < |pages| => PageOf(pages[i]));
    assert forall i :: 0 <= i < |pages| ==> ([MePage(avatar)] + rest)[i + 1] == rest[i];
    [MePage(avatar)] + rest
  }

  /** Where a creation goes. */
  datatype CreateTarget = OnTimeline | OnPage(pageId: string) | NoCreation

  /**
   * The dispatch of `handleCreateLivestream`, given whether the restreamer
   * offers timeline creation and page creation.
   */
  function CreateTargetFor(page: Page, hasTimelineCall: bool, hasPageCall: bool): (t: CreateTarget)
    ensures t == OnTimeline <==> page.id == Some(PageMeId) && hasTimelineCall
    ensures t.OnPage? <==> Truthy(page.id) && hasPageCall && !(page.id == Some(PageMeId) && hasTimelineCall)
    ensures t.OnPage? ==> Some(t.pageId) == page.id
    ensures page.id.None? ==> t == NoCreation
  {
    if page.id == Some(PageMeId) && hasTimelineCall then OnTimeline
    else if Truthy(page.id) && hasPageCall then OnPage(page.id.value)
    else NoCreation
  }

  /** The timeline entry falls through to page creation when the timeline call is missing. */
  lemma MeWithoutTimelineCall(avatar: string)
    ensures CreateTargetFor(MePage(avatar), false, true) == OnPage(PageMeId)
    ensures CreateTargetFor(MePage(avatar), false, false) == NoCreation
  {
  }

  /** What the form shows. */
  datatype View =
    | Nothing
    | EventView(title: string, description: string)
    | CreateEventView(createDisabled: bool, busy: bool)
    | PageList(pages: seq<Page>)

  /** What `onChange` receives. */
  datatype Change = Change(outputs: seq<Output>, settings: Settings)

  class Service {
    var currentScreen: Screen
    var pageSelected: Page
    var eventMeta: EventMeta
    var isLiveCreating: bool
    var livestream: Livestream
    /** `accountInfo?.data` when it is an array. */
    var accountPages: Option<seq<AccountPage>>
    var avatar: string

    constructor ()
      ensures currentScreen == ListScreen && pageSelected == NoPage && eventMeta == EmptyMeta
      ensures !isLiveCreating && livestream == Livestream(None, None)
      ensures accountPages == None && avatar == ""
    {
      currentScreen := ListScreen;
      pageSelected := NoPage;
      eventMeta := EmptyMeta;
      isLiveCreating := false;
      livestream := Livestream(None, None);
      accountPages := None;
      avatar := "";
    }

    method NavigateScreen(screen: Screen)
      modifies this`currentScreen
      ensures currentScreen == screen
    {
      currentScreen := screen;
    }

    /** `handleClickPage` */
    method HandleClickPage(page: Page)
      modifies this`pageSelected, this`currentScreen
      ensures pageSelected == page && currentScreen == CreateEventScreen
    {
      pageSelected := page;
      NavigateScreen(CreateEventScreen);
    }

    /** `handleBackCreateLivestream` */
    method HandleBackCreateLivestream()
      modifies this`pageSelected, this`eventMeta, this`currentScreen
      ensures pageSelected == NoPage && eventMeta == EmptyMeta && currentScreen == ListScreen
    {
      pageSelected := NoPage;
      eventMeta := EmptyMeta;
      NavigateScreen(ListScreen);
    }

    /** `handleChangeEventMeta` */
    method HandleChangeEventMeta(name: MetaField, value: string)
      modifies this`eventMeta
      ensures eventMeta == WithField(old(eventMeta), name, value)
    {
      eventMeta := WithField(eventMeta, name, value);
    }

    /** `handleCreateLivestream` up to the call: the target and the busy flag. */
    method HandleCreateLivestream(hasTimelineCall: bool, hasPageCall: bool) returns (target: CreateTarget)
      modifies this`isLiveCreating
      ensures target == CreateTargetFor(pageSelected, hasTimelineCall, hasPageCall)
      ensures isLiveCreating == (target != NoCreation || old(isLiveCreating))
    {
      target := CreateTargetFor(pageSelected, hasTimelineCall, hasPageCall);
      if target != NoCreation {
        isLiveCreating := true;
      }
    }

    /**
     * The settlement of a creation call: on a live video it is stored, the
     * stream key is reported and the event screen shown; either way the busy
     * flag is cleared.
     */
    method FinishCreateLivestream(settings: Settings, answer: Option<Livestream>) returns (change: Option<Change>)
      modifies this`livestream, this`currentScreen, this`isLiveCreating
      ensures !isLiveCreating
      ensures answer.None? ==> change.None? && livestream == old(livestream) && currentScreen == old(currentScreen)
      ensures answer.Some? ==>
        && livestream == answer.value && currentScreen == EventScreen
        && change.Some? && change.value.settings == settings[StreamKeyPrimary := Str(StreamKey(answer))]
        && |change.value.outputs| <= 1
        && (change.value.outputs != [] <==> StreamKey(answer) != "" && IsTruthy(Get(settings, RtmpPrimary)))
        && (change.value.outputs != [] ==> change.value.outputs[0] == Output(answer.value.secureStreamUrl, FlvOptions))
    {
      change := None;
      if answer.Some? {
        livestream := answer.value;
        var outputs, updated := ChangeStreamKey(settings, answer);
        change := Some(Change(outputs, updated));
        NavigateScreen(EventScreen);
      }
      isLiveCreating := false;
    }

    /** The Create button is disabled while creating or while a field is empty. */
    predicate CreateDisabled()
      reads this
    {
      isLiveCreating || eventMeta.title == "" || eventMeta.description == ""
    }

    /** The render guards and the screen shown. */
    function Render(authenticated: bool): (v: View)
      reads this
      ensures !authenticated || accountPages.None? || accountPages == Some([]) ==> v == Nothing
      ensures v.EventView? <==>
        authenticated && accountPages.Some? && accountPages.value != []
        && currentScreen == EventScreen && Truthy(livestream.id)
      ensures v.EventView? ==> v.title == eventMeta.title && v.description == eventMeta.description
      ensures v.CreateEventView? <==>
        authenticated && accountPages.Some? && accountPages.value != []
        && currentScreen == CreateEventScreen && Truthy(pageSelected.id)
      ensures v.CreateEventView? ==> (v.createDisabled <==> isLiveCreating || eventMeta.title == "" || eventMeta.description == "")
      ensures v.CreateEventView? ==> v.busy == isLiveCreating
      ensures authenticated && accountPages.Some? && accountPages.value != [] && currentScreen == ListScreen ==>
        v == PageList(ListedPages(avatar, accountPages.value))
      ensures v.PageList? ==>
        && currentScreen == ListScreen && accountPages.Some?
        && |v.pages| == |accountPages.value| + 1
        && v.pages[0] == MePage(avatar)
        && forall i :: 0 <= i < |accountPages.value| ==> v.pages[i + 1] == PageOf(accountPages.value[i])
    {
      if !authenticated then Nothing
      else if accountPages.None? || accountPages.value == [] then Nothing
      else
        match currentScreen
        case EventScreen =>
          if !Truthy(livestream.id) then Nothing else EventView(eventMeta.title, eventMeta.description)
        case CreateEventScreen =>
          if !Truthy(pageSelected.id) then Nothing else CreateEventView(CreateDisabled(), isLiveCreating)
        case ListScreen =>
          PageList(ListedPages(avatar, accountPages.value))
    }
  }
}
