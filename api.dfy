/** The REST client of src/services/apiService.ts. The device key-value store holding
    the access token is a map field of the service; the HTTP exchange is a `Reply`
    value standing for what the server answers, and every call returns the request it
    would send (or none, when it fails before sending). */
module Api {
  import opened Common

  const BaseUrl := "https://xbll7p88-5000.inc1.devtunnels.ms/patients"
  const RegisterPath := "/register"
  const LoginPath := "/login"
  const ProfileDetailsPath := "/profile-details"
  const ProfileUpdatePath := "/profile-details-update"
  const EventsPath := "/events"
  const ReportUploadPath := "/report/upload"
  const ReportListPath := "/report/list"
  const ReportDownloadPath := "/report/download"
  const IssueSubmitPath := "/issue"
  const IssueListPath := "/issue/list"

  /** The storage key of the bearer token. */
  const TokenKey := "access_token"
  const NoTokenMessage := "No authentication token found"
  const HttpErrorPrefix := "HTTP error! status: "

  // ---- request payloads ----

  datatype RegisterRequest = RegisterRequest(
    firstName: string, lastName: string, age: string, dob: string, sex: string,
    mobile: string, password: string, confirmPassword: string, otp: string)

  datatype LoginRequest = LoginRequest(mobile: string, password: string)

  /** A local file handed to a multipart upload; type and name may be missing. */
  datatype FileRef = FileRef(uri: string, mimeType: Option<string>, name: Option<string>)

  datatype ProfileUpdateRequest = ProfileUpdateRequest(
    bloodGroup: Option<string>, email: Option<string>, category: Option<string>,
    father: Option<string>, mother: Option<string>, address: Option<string>,
    profileImage: Option<FileRef>)

  datatype IssueSubmitRequest = IssueSubmitRequest(
    text: Option<string>, languageCode: Option<string>, audio: Option<FileRef>)

  // ---- response payloads ----

  datatype RegisterResponse = RegisterResponse(message: string, uniqueId: string)

  datatype LoginResponse = LoginResponse(accessToken: string)

  datatype ProfileExtras = ProfileExtras(
    bloodGroup: Option<string>, address: Option<string>, email: Option<string>,
    category: Option<string>, father: Option<string>, mother: Option<string>,
    profileImage: Option<string>)

  datatype Profile = Profile(
    id: string, firstName: string, lastName: string, age: int, dob: string, sex: string,
    mobile: string, createdAt: string, extras: ProfileExtras, uniqueId: string)

  datatype ProfileResponse = ProfileResponse(profile: Profile)

  datatype ProfileUpdateResponse = ProfileUpdateResponse(message: string, profile: ProfileExtras)

  datatype Event = Event(id: string, title: string, date: string, location: string)

  datatype EventsResponse = EventsResponse(events: seq<Event>)

  datatype ReportUploadResponse = ReportUploadResponse(message: string, filename: string)

  datatype Report = Report(id: string, userId: string, filename: string, originalName: string, uploadedAt: string)

  datatype ReportsListResponse = ReportsListResponse(reports: seq<Report>)

  datatype IssueSubmitResponse = IssueSubmitResponse(message: string)

  datatype Issue = Issue(
    id: string, userId: string, createdAt: string, text: Option<string>, translated: Option<string>,
    audioFilename: Option<string>, audioTranscript: Option<string>)

  datatype IssuesListResponse = IssuesListResponse(issues: seq<Issue>)

  // ---- requests and replies ----

  /** One entry of a multipart form: a text value or a file part. */
  datatype FormField =
    | TextField(name: string, value: string)
    | FilePart(name: string, uri: string, mimeType: string, fileName: string)

  /** What a JSON body serialises. */
  datatype JsonPayload = RegisterJson(register: RegisterRequest) | LoginJson(login: LoginRequest)

  datatype Body = NoBody | Json(payload: JsonPayload) | Form(fields: seq<FormField>)

  datatype Request = Request(verb: string, url: string, headers: map<string, string>, body: Body)

  /** What the server answers: a response (with the `error` field of its JSON body, if
      any, and the decoded payload when ok), or a transport failure with its message. */
  datatype Reply<T> =
    | Answered(ok: bool, status: nat, errorField: Option<string>, payload: T)
    | Unreachable(reason: string)

  /** `${API_CONFIG.BASE_URL}${endpoint}`. */
  function Url(endpoint: string): (url: string)
    ensures |url| == |BaseUrl| + |endpoint|
    ensures url[..|BaseUrl|] == BaseUrl && url[|BaseUrl|..] == endpoint
  {
    BaseUrl + endpoint
  }

  const JsonHeaders: map<string, string> := map["Content-Type" := "application/json"]

  /** `getAuthHeaders(token)`. */
  function AuthHeaders(token: string): (h: map<string, string>)
    ensures h.Keys == {"Authorization", "Content-Type"}
    ensures h["Authorization"] == "Bearer " + token && h["Content-Type"] == "application/json"
  {
    map["Authorization" := "Bearer " + token, "Content-Type" := "application/json"]
  }

  /** `getMultipartAuthHeaders(token)`: no content type, so the platform sets the boundary. */
  function MultipartAuthHeaders(token: string): (h: map<string, string>)
    ensures h == AuthHeaders(token) - {"Content-Type"}
  {
    map["Authorization" := "Bearer " + token]
  }

  /** The fetch issued by `makeRequest`: the default JSON headers, overridden by the caller's. */
  function JsonRequest(endpoint: string, verb: string, headers: map<string, string>, body: Body): (req: Request)
    ensures req.url == Url(endpoint) && req.verb == verb && req.body == body
    ensures req.headers.Keys == headers.Keys + {"Content-Type"}
    ensures forall k :: k in headers ==> req.headers[k] == headers[k]
    ensures "Content-Type" !in headers ==> req.headers["Content-Type"] == "application/json"
  {
    Request(verb, Url(endpoint), JsonHeaders + headers, body)
  }

  /** The fetch issued by `makeMultipartRequest`: the form as body, the bearer header only. */
  function MultipartRequest(endpoint: string, verb: string, token: string, fields: seq<FormField>): (req: Request)
    ensures req.url == Url(endpoint) && req.verb == verb && req.body == Form(fields)
    ensures req.headers.Keys == {"Authorization"} && req.headers["Authorization"] == "Bearer " + token
  {
    Request(verb, Url(endpoint), MultipartAuthHeaders(token), Form(fields))
  }

  /** The message of the error thrown for a non-ok response: the server's `error` field
      when it is a non-empty string, otherwise the status line. */
  function ErrorMessage(status: nat, errorField: Option<string>): (m: string)
    ensures Truthy(errorField) ==> m == errorField.value
    ensures !Truthy(errorField) ==> |m| > |HttpErrorPrefix| && m[..|HttpErrorPrefix|] == HttpErrorPrefix
  {
    OrElse(errorField, HttpErrorPrefix + DecimalString(status))
  }

  /** Without a server message, the status code can be read back from the error message. */
  lemma ErrorMessageCarriesStatus(status: nat, errorField: Option<string>)
    requires !Truthy(errorField)
    ensures var m := ErrorMessage(status, errorField);
            && (forall i :: |HttpErrorPrefix| <= i < |m| ==> IsDigit(m[i]))
            && ParseDecimal(m[|HttpErrorPrefix|..]) == status
  {
    var m := ErrorMessage(status, errorField);
    assert m[|HttpErrorPrefix|..] == DecimalString(status);
    DecimalRoundTrip(status);
  }

  /** The result of `makeRequest`/`makeMultipartRequest` for a reply: its payload when
      the response is ok, otherwise the error it throws. */
  function Outcome<T>(reply: Reply<T>): (r: Result<T, string>)
    ensures r.Success? <==> reply.Answered? && reply.ok
    ensures r.Success? ==> r.value == reply.payload
    ensures reply.Unreachable? ==> r == Failure(reply.reason)
    ensures reply.Answered? && !reply.ok ==> r == Failure(ErrorMessage(reply.status, reply.errorField))
  {
    match reply
    case Unreachable(reason) => Failure(reason)
    case Answered(ok, status, errorField, payload) =>
      if ok then Success(payload) else Failure(ErrorMessage(status, errorField))
  }

  /** `downloadReport` reads no error body: a non-ok response always reports its status. */
  function DownloadOutcome(reply: Reply<seq<bv8>>): (r: Result<seq<bv8>, string>)
    ensures r.Success? <==> reply.Answered? && reply.ok
    ensures r.Success? ==> r.value == reply.payload
    ensures reply.Answered? && !reply.ok ==> r == Failure(HttpErrorPrefix + DecimalString(reply.status))
    ensures reply.Unreachable? ==> r == Failure(reply.reason)
  {
    match reply
    case Unreachable(reason) => Failure(reason)
    case Answered(ok, status, _, payload) =>
      if ok then Success(payload) else Failure(HttpErrorPrefix + DecimalString(status))
  }

  // ---- multipart forms ----

  /** `{ uri, type: type || defaultType, name: name || defaultName }`. */
  function FilePartOf(name: string, file: FileRef, defaultType: string, defaultName: string): (f: FormField)
    ensures f.FilePart? && f.name == name && f.uri == file.uri
    ensures Truthy(file.mimeType) ==> f.mimeType == file.mimeType.value
    ensures !Truthy(file.mimeType) ==> f.mimeType == defaultType
    ensures Truthy(file.name) ==> f.fileName == file.name.value
    ensures !Truthy(file.name) ==> f.fileName == defaultName
  {
    FilePart(name, file.uri, OrElse(file.mimeType, defaultType), OrElse(file.name, defaultName))
  }

  /** The text field appended by `if (value) formData.append(name, value)`, if any. */
  function TextSlot(name: string, value: Option<string>): (slot: Option<FormField>) {
    if Truthy(value) then Some(TextField(name, value.value)) else None
  }

  function FileSlot(name: string, file: Option<FileRef>, defaultType: string, defaultName: string): (slot: Option<FormField>) {
    if file.Some? then Some(FilePartOf(name, file.value, defaultType, defaultName)) else None
  }

  function Part(slot: Option<FormField>): (part: seq<FormField>) {
    if slot.Some? then [slot.value] else []
  }

  /** The form obtained by appending, in turn, the field of every slot that holds one. */
  function Present(slots: seq<Option<FormField>>): (form: seq<FormField>) {
    if slots == [] then [] else Present(slots[..|slots| - 1]) + Part(slots[|slots| - 1])
  }

  /** The slots filled so far, one more appended; the form grows by that slot's field. */
  ghost function Snoc(done: seq<Option<FormField>>, slot: Option<FormField>): (next: seq<Option<FormField>>)
    ensures next == done + [slot]
    ensures Present(next) == Present(done) + Part(slot)
  {
    assert (done + [slot])[..|done|] == done;
    done + [slot]
  }

  lemma {:induction false} PresentAllNone(slots: seq<Option<FormField>>)
    requires forall k :: 0 <= k < |slots| ==> slots[k].None?
    ensures Present(slots) == []
  {
    if slots != [] {
      PresentAllNone(slots[..|slots| - 1]);
    }
  }

  /** The first field of the form with the given name (what the server reads for it). */
  function FieldNamed(form: seq<FormField>, name: string): (f: Option<FormField>)
    ensures f.Some? ==> f.value in form && f.value.name == name
    ensures f.Some? ==> exists i :: 0 <= i < |form| && form[i] == f.value
                                    && forall j :: 0 <= j < i ==> form[j].name != name
    ensures f.None? <==> forall g :: g in form ==> g.name != name
  {
    if form == [] then None
    else if form[0].name == name then Some(form[0])
    else FieldNamed(form[1..], name)
  }

  lemma {:induction false} FieldNamedConcat(a: seq<FormField>, b: seq<FormField>, name: string)
    ensures FieldNamed(a + b, name) == if FieldNamed(a, name).Some? then FieldNamed(a, name) else FieldNamed(b, name)
  {
    if a != [] {
      assert (a + b)[1..] == a[1..] + b;
      FieldNamedConcat(a[1..], b, name);
    } else {
      assert a + b == b;
    }
  }

  /** The names of a form's fields, in order. */
  function Names(form: seq<FormField>): (names: seq<string>)
    ensures |names| == |form| && forall i :: 0 <= i < |form| ==> names[i] == form[i].name
  {
    seq(|form|, i requires 0 <= i < |form| => form[i].name)
  }

  /** `xs` is `ys` with some elements left out. */
  predicate IsSubsequence(xs: seq<string>, ys: seq<string>)
    decreases |ys|
  {
    if xs == [] then true
    else if ys == [] then false
    else if xs[|xs| - 1] == ys[|ys| - 1] then IsSubsequence(xs[..|xs| - 1], ys[..|ys| - 1])
    else IsSubsequence(xs, ys[..|ys| - 1])
  }

  /** Slot k holds, if anything, the field named order[k]. */
  predicate SlotsMatch(slots: seq<Option<FormField>>, order: seq<string>) {
    && |slots| == |order|
    && forall k :: 0 <= k < |slots| && slots[k].Some? ==> slots[k].value.name == order[k]
  }

  lemma {:induction false} PresentNamesIn(slots: seq<Option<FormField>>, order: seq<string>)
    requires SlotsMatch(slots, order)
    ensures forall f :: f in Present(slots) ==> f.name in order
    decreases |slots|
  {
    if slots != [] {
      var n := |slots| - 1;
      PresentNamesIn(slots[..n], order[..n]);
      forall f | f in Present(slots) ensures f.name in order {
        if f in Present(slots[..n]) {
          var k :| 0 <= k < n && order[..n][k] == f.name;
          assert order[k] == f.name;
        }
      }
    }
  }

  /** Appending slot by slot yields a form in which the field under order[k] is slot k's. */
  lemma {:induction false} PresentFieldNamed(slots: seq<Option<FormField>>, order: seq<string>, k: nat)
    requires SlotsMatch(slots, order) && Distinct(order) && k < |order|
    ensures FieldNamed(Present(slots), order[k]) == slots[k]
    decreases |slots|
  {
    var n := |slots| - 1;
    var pre, preOrder := slots[..n], order[..n];
    FieldNamedConcat(Present(pre), Part(slots[n]), order[k]);
    if k < n {
      PresentFieldNamed(pre, preOrder, k);
    } else {
      PresentNamesIn(pre, preOrder);
      forall g | g in Present(pre) ensures g.name != order[n] {
        var j :| 0 <= j < n && preOrder[j] == g.name;
      }
    }
  }

  /** ... and the names of its fields follow `order`. */
  lemma {:induction false} PresentFollowsOrder(slots: seq<Option<FormField>>, order: seq<string>)
    requires SlotsMatch(slots, order) && Distinct(order)
    ensures IsSubsequence(Names(Present(slots)), order)
    decreases |slots|
  {
    if slots != [] {
      var n := |slots| - 1;
      var pre, preOrder := slots[..n], order[..n];
      PresentFollowsOrder(pre, preOrder);
      var p := Present(pre);
      if slots[n].Some? {
        assert Names(Present(slots))[..|p|] == Names(p);
      } else {
        assert Names(Present(slots)) == Names(p);
        if p != [] {
          PresentNamesIn(pre, preOrder);
          assert p[|p| - 1] in p;
          var j :| 0 <= j < n && preOrder[j] == p[|p| - 1].name;
        }
      }
    }
  }

  const IssueFieldOrder: seq<string> := ["text", "language_code", "audio"]

  function IssueSlots(data: IssueSubmitRequest): (slots: seq<Option<FormField>>) {
    [ TextSlot("text", data.text),
      TextSlot("language_code", data.languageCode),
      FileSlot("audio", data.audio, "audio/wav", "audio.wav") ]
  }

  /** The form `submitIssue` builds. */
  function IssueForm(data: IssueSubmitRequest): (form: seq<FormField>)
    ensures forall f :: f in form ==> f.name in IssueFieldOrder
  {
    PresentNamesIn(IssueSlots(data), IssueFieldOrder);
    Present(IssueSlots(data))
  }

  /** `submitIssue` sends `text` and `language_code` exactly when non-empty and an `audio`
      part exactly when audio is given (typed 'audio/wav', named 'audio.wav' by default),
      in that order; with none of them the form is empty and is still sent. */
  lemma IssueFormContents(data: IssueSubmitRequest)
    ensures FieldNamed(IssueForm(data), "text") == TextSlot("text", data.text)
    ensures FieldNamed(IssueForm(data), "language_code") == TextSlot("language_code", data.languageCode)
    ensures FieldNamed(IssueForm(data), "audio") == FileSlot("audio", data.audio, "audio/wav", "audio.wav")
    ensures IsSubsequence(Names(IssueForm(data)), IssueFieldOrder)
    ensures !Truthy(data.text) && !Truthy(data.languageCode) && data.audio.None? ==> IssueForm(data) == []
  {
    var slots := IssueSlots(data);
    assert SlotsMatch(slots, IssueFieldOrder);
    PresentFieldNamed(slots, IssueFieldOrder, 0);
    PresentFieldNamed(slots, IssueFieldOrder, 1);
    PresentFieldNamed(slots, IssueFieldOrder, 2);
    PresentFollowsOrder(slots, IssueFieldOrder);
    if !Truthy(data.text) && !Truthy(data.languageCode) && data.audio.None? {
      PresentAllNone(slots);
    }
  }

  const ProfileFieldOrder: seq<string> :=
    ["blood_group", "email", "category", "father", "mother", "address", "profile_image"]

  function ProfileSlots(data: ProfileUpdateRequest): (slots: seq<Option<FormField>>) {
    [ TextSlot("blood_group", data.bloodGroup),
      TextSlot("email", data.email),
      TextSlot("category", data.category),
      TextSlot("father", data.father),
      TextSlot("mother", data.mother),
      TextSlot("address", data.address),
      FileSlot("profile_image", data.profileImage, "image/jpeg", "profile.jpg") ]
  }

  /** The form `updateProfile` builds. */
  function ProfileForm(data: ProfileUpdateRequest): (form: seq<FormField>)
    ensures forall f :: f in form ==> f.name in ProfileFieldOrder
  {
    PresentNamesIn(ProfileSlots(data), ProfileFieldOrder);
    Present(ProfileSlots(data))
  }

  /** `updateProfile` sends each of blood_group, email, category, father, mother and address
      exactly when it is non-empty, and the image part exactly when an image is given
      (typed 'image/jpeg', named 'profile.jpg' by default), in that order. */
  lemma ProfileFormContents(data: ProfileUpdateRequest)
    ensures FieldNamed(ProfileForm(data), "blood_group") == TextSlot("blood_group", data.bloodGroup)
    ensures FieldNamed(ProfileForm(data), "email") == TextSlot("email", data.email)
    ensures FieldNamed(ProfileForm(data), "category") == TextSlot("category", data.category)
    ensures FieldNamed(ProfileForm(data), "father") == TextSlot("father", data.father)
    ensures FieldNamed(ProfileForm(data), "mother") == TextSlot("mother", data.mother)
    ensures FieldNamed(ProfileForm(data), "address") == TextSlot("address", data.address)
    ensures FieldNamed(ProfileForm(data), "profile_image") ==
              FileSlot("profile_image", data.profileImage, "image/jpeg", "profile.jpg")
    ensures IsSubsequence(Names(ProfileForm(data)), ProfileFieldOrder)
  {
    var slots := ProfileSlots(data);
    assert SlotsMatch(slots, ProfileFieldOrder);
    PresentFieldNamed(slots, ProfileFieldOrder, 0);
    PresentFieldNamed(slots, ProfileFieldOrder, 1);
    PresentFieldNamed(slots, ProfileFieldOrder, 2);
    PresentFieldNamed(slots, ProfileFieldOrder, 3);
    PresentFieldNamed(slots, ProfileFieldOrder, 4);
    PresentFieldNamed(slots, ProfileFieldOrder, 5);
    PresentFieldNamed(slots, ProfileFieldOrder, 6);
    PresentFollowsOrder(slots, ProfileFieldOrder);
  }

  /** The form `uploadReport` builds: one file part, typed 'application/pdf' and named
      'report.pdf' by default. */
  function ReportForm(file: FileRef): (form: seq<FormField>)
    ensures |form| == 1 && form[0] == FilePartOf("file", file, "application/pdf", "report.pdf")
  {
    [FilePartOf("file", file, "application/pdf", "report.pdf")]
  }

  /** Appends the text field `name` when the value is a non-empty string. */
  method AppendText(form: seq<FormField>, name: string, value: Option<string>) returns (next: seq<FormField>)
    ensures next == form + Part(TextSlot(name, value))
    ensures Truthy(value) ==> next == form + [TextField(name, value.value)]
    ensures !Truthy(value) ==> next == form
  {
    next := form;
    if Truthy(value) {
      next := next + [TextField(name, value.value)];
    }
  }

  /** Appends the file part under `name` when a file is given, with the default type and
      file name standing in for missing ones. */
  method AppendFile(form: seq<FormField>, name: string, file: Option<FileRef>, defaultType: string, defaultName: string)
    returns (next: seq<FormField>)
    ensures next == form + Part(FileSlot(name, file, defaultType, defaultName))
    ensures file.Some? ==> next == form + [FilePartOf(name, file.value, defaultType, defaultName)]
    ensures file.None? ==> next == form
  {
    next := form;
    if file.Some? {
      next := next + [FilePartOf(name, file.value, defaultType, defaultName)];
    }
  }

  /** The appends of `updateProfile`, in their order. */
  method BuildProfileForm(data: ProfileUpdateRequest) returns (form: seq<FormField>)
    ensures form == ProfileForm(data)
  {
    form := [];
    ghost var done: seq<Option<FormField>> := [];
    form := AppendText(form, "blood_group", data.bloodGroup);
    done := Snoc(done, TextSlot("blood_group", data.bloodGroup));
    form := AppendText(form, "email", data.email);
    done := Snoc(done, TextSlot("email", data.email));
    form := AppendText(form, "category", data.category);
    done := Snoc(done, TextSlot("category", data.category));
    form := AppendText(form, "father", data.father);
    done := Snoc(done, TextSlot("father", data.father));
    form := AppendText(form, "mother", data.mother);
    done := Snoc(done, TextSlot("mother", data.mother));
    form := AppendText(form, "address", data.address);
    done := Snoc(done, TextSlot("address", data.address));
    form := AppendFile(form, "profile_image", data.profileImage, "image/jpeg", "profile.jpg");
    done := Snoc(done, FileSlot("profile_image", data.profileImage, "image/jpeg", "profile.jpg"));
    assert done == ProfileSlots(data);
  }

  /** The appends of `submitIssue`, in their order. */
  method BuildIssueForm(data: IssueSubmitRequest) returns (form: seq<FormField>)
    ensures form == IssueForm(data)
  {
    form := [];
    ghost var done: seq<Option<FormField>> := [];
    form := AppendText(form, "text", data.text);
    done := Snoc(done, TextSlot("text", data.text));
    form := AppendText(form, "language_code", data.languageCode);
    done := Snoc(done, TextSlot("language_code", data.languageCode));
    form := AppendFile(form, "audio", data.audio, "audio/wav", "audio.wav");
    done := Snoc(done, FileSlot("audio", data.audio, "audio/wav", "audio.wav"));
    assert done == IssueSlots(data);
  }

  // ---- the token ----

  /** What `getToken` yields for a store: the stored token, or null when the key is
      missing or the storage call throws. */
  function TokenIn(store: map<string, string>, storageUp: bool): (t: Option<string>)
    ensures t.Some? <==> storageUp && TokenKey in store
    ensures t.Some? ==> t.value == store[TokenKey]
  {
    if storageUp && TokenKey in store then Some(store[TokenKey]) else None
  }

  /** `isAuthenticated`: a non-empty token is stored and readable. */
  function SignedIn(store: map<string, string>, storageUp: bool): (b: bool)
    ensures b <==> storageUp && TokenKey in store && store[TokenKey] != ""
  {
    Truthy(TokenIn(store, storageUp))
  }

  /** Login stores the token (signed in exactly when it is non-empty), logout removes it,
      and an unreadable store reads as signed out. */
  lemma TokenLifecycle(store: map<string, string>, token: string)
    ensures SignedIn(store[TokenKey := token], true) <==> token != ""
    ensures !SignedIn(store - {TokenKey}, true)
    ensures !SignedIn(store, false)
  {
  }

  class ApiService {
    /** The device key-value store (AsyncStorage). */
    var store: map<string, string>
    /** False when calls to the store throw. */
    var storageUp: bool

    constructor (store: map<string, string>, storageUp: bool)
      ensures this.store == store && this.storageUp == storageUp
    {
      this.store := store;
      this.storageUp := storageUp;
    }

    function Token(): (t: Option<string>)
      reads this
    {
      TokenIn(store, storageUp)
    }

    /** `getToken`: the stored token; a throwing store yields null. */
    method GetToken() returns (token: Option<string>)
      ensures !storageUp ==> token.None?
      ensures storageUp ==> token == (if TokenKey in store then Some(store[TokenKey]) else None)
    {
      if !storageUp {
        return None;
      }
      token := if TokenKey in store then Some(store[TokenKey]) else None;
    }

    /** `setToken`: a throwing store is ignored. */
    method SetToken(token: string)
      modifies this`store
      ensures store == if storageUp then old(store)[TokenKey := token] else old(store)
    {
      if storageUp {
        store := store[TokenKey := token];
      }
    }

    /** `clearToken`: a throwing store is ignored. */
    method ClearToken()
      modifies this`store
      ensures store == if storageUp then old(store) - {TokenKey} else old(store)
    {
      if storageUp {
        store := store - {TokenKey};
      }
    }

    method Register(data: RegisterRequest, reply: Reply<RegisterResponse>)
      returns (r: Result<RegisterResponse, string>, sent: Request)
      ensures sent == JsonRequest(RegisterPath, "POST", map[], Json(RegisterJson(data)))
      ensures r == Outcome(reply)
    {
      sent := JsonRequest(RegisterPath, "POST", map[], Json(RegisterJson(data)));
      r := Outcome(reply);
    }

    /** `login`: on success the returned token is stored. */
    method Login(data: LoginRequest, reply: Reply<LoginResponse>)
      returns (r: Result<LoginResponse, string>, sent: Request)
      modifies this`store
      ensures sent == JsonRequest(LoginPath, "POST", map[], Json(LoginJson(data)))
      ensures r == Outcome(reply)
      ensures r.Success? ==> store == if storageUp then old(store)[TokenKey := r.value.accessToken] else old(store)
      ensures r.Failure? ==> store == old(store)
    {
      sent := JsonRequest(LoginPath, "POST", map[], Json(LoginJson(data)));
      r := Outcome(reply);
      if r.Success? {
        SetToken(r.value.accessToken);
      }
    }

    method Logout()
      modifies this`store
      ensures store == if storageUp then old(store) - {TokenKey} else old(store)
    {
      ClearToken();
    }

    method GetProfile(reply: Reply<ProfileResponse>)
      returns (r: Result<ProfileResponse, string>, sent: Option<Request>)
      ensures !Truthy(Token()) ==> r == Failure(NoTokenMessage) && sent == None
      ensures Truthy(Token()) ==>
                sent == Some(JsonRequest(ProfileDetailsPath, "GET", AuthHeaders(Token().value), NoBody))
                && r == Outcome(reply)
    {
      var token := GetToken();
      if !Truthy(token) {
        return Failure(NoTokenMessage), None;
      }
      sent := Some(JsonRequest(ProfileDetailsPath, "GET", AuthHeaders(token.value), NoBody));
      r := Outcome(reply);
    }

    /** `updateProfile`. The multipart helper reads the token a second time for its header; when
        that read throws (`rereadFails`), the header carries an empty bearer token. */
    method UpdateProfile(data: ProfileUpdateRequest, rereadFails: bool, reply: Reply<ProfileUpdateResponse>)
      returns (r: Result<ProfileUpdateResponse, string>, sent: Option<Request>)
      ensures !Truthy(Token()) ==> r == Failure(NoTokenMessage) && sent == None
      ensures Truthy(Token()) ==>
                sent == Some(MultipartRequest(ProfileUpdatePath, "PUT", if rereadFails then "" else Token().value, ProfileForm(data)))
                && r == Outcome(reply)
    {
      var token := GetToken();
      if !Truthy(token) {
        return Failure(NoTokenMessage), None;
      }
      var form := BuildProfileForm(data);
      var again: Option<string> := None;
      if !rereadFails {
        again := GetToken();
      }
      sent := Some(MultipartRequest(ProfileUpdatePath, "PUT", OrElse(again, ""), form));
      r := Outcome(reply);
    }

    method GetEvents(reply: Reply<EventsResponse>)
      returns (r: Result<EventsResponse, string>, sent: Request)
      ensures sent == JsonRequest(EventsPath, "GET", map[], NoBody)
      ensures r == Outcome(reply)
    {
      sent := JsonRequest(EventsPath, "GET", map[], NoBody);
      r := Outcome(reply);
    }

    /** `uploadReport`. The multipart helper reads the token a second time for its header; when
        that read throws (`rereadFails`), the header carries an empty bearer token. */
    method UploadReport(file: FileRef, rereadFails: bool, reply: Reply<ReportUploadResponse>)
      returns (r: Result<ReportUploadResponse, string>, sent: Option<Request>)
      ensures !Truthy(Token()) ==> r == Failure(NoTokenMessage) && sent == None
      ensures Truthy(Token()) ==>
                sent == Some(MultipartRequest(ReportUploadPath, "POST", if rereadFails then "" else Token().value, ReportForm(file)))
                && r == Outcome(reply)
    {
      var token := GetToken();
      if !Truthy(token) {
        return Failure(NoTokenMessage), None;
      }
      var form: seq<FormField> := [];
      form := AppendFile(form, "file", Some(file), "application/pdf", "report.pdf");
      assert form == ReportForm(file);
      var again: Option<string> := None;
      if !rereadFails {
        again := GetToken();
      }
      sent := Some(MultipartRequest(ReportUploadPath, "POST", OrElse(again, ""), form));
      r := Outcome(reply);
    }

    method GetReports(reply: Reply<ReportsListResponse>)
      returns (r: Result<ReportsListResponse, string>, sent: Option<Request>)
      ensures !Truthy(Token()) ==> r == Failure(NoTokenMessage) && sent == None
      ensures Truthy(Token()) ==>
                sent == Some(JsonRequest(ReportListPath, "GET", AuthHeaders(Token().value), NoBody))
                && r == Outcome(reply)
    {
      var token := GetToken();
      if !Truthy(token) {
        return Failure(NoTokenMessage), None;
      }
      sent := Some(JsonRequest(ReportListPath, "GET", AuthHeaders(token.value), NoBody));
      r := Outcome(reply);
    }

    /** `downloadReport`: a direct fetch of `<base>/report/download/<filename>`. */
    method DownloadReport(filename: string, reply: Reply<seq<bv8>>)
      returns (r: Result<seq<bv8>, string>, sent: Option<Request>)
      ensures !Truthy(Token()) ==> r == Failure(NoTokenMessage) && sent == None
      ensures Truthy(Token()) ==>
                sent == Some(Request("GET", Url(ReportDownloadPath + "/" + filename), AuthHeaders(Token().value), NoBody))
                && r == DownloadOutcome(reply)
    {
      var token := GetToken();
      if !Truthy(token) {
        return Failure(NoTokenMessage), None;
      }
      sent := Some(Request("GET", Url(ReportDownloadPath + "/" + filename), AuthHeaders(token.value), NoBody));
      r := DownloadOutcome(reply);
    }

    /** `submitIssue`. The multipart helper reads the token a second time for its header; when
        that read throws (`rereadFails`), the header carries an empty bearer token. */
    method SubmitIssue(data: IssueSubmitRequest, rereadFails: bool, reply: Reply<IssueSubmitResponse>)
      returns (r: Result<IssueSubmitResponse, string>, sent: Option<Request>)
      ensures !Truthy(Token()) ==> r == Failure(NoTokenMessage) && sent == None
      ensures Truthy(Token()) ==>
                sent == Some(MultipartRequest(IssueSubmitPath, "POST", if rereadFails then "" else Token().value, IssueForm(data)))
                && r == Outcome(reply)
    {
      var token := GetToken();
      if !Truthy(token) {
        return Failure(NoTokenMessage), None;
      }
      var form := BuildIssueForm(data);
      var again: Option<string> := None;
      if !rereadFails {
        again := GetToken();
      }
      sent := Some(MultipartRequest(IssueSubmitPath, "POST", OrElse(again, ""), form));
      r := Outcome(reply);
    }

    method GetIssues(reply: Reply<IssuesListResponse>)
      returns (r: Result<IssuesListResponse, string>, sent: Option<Request>)
      ensures !Truthy(Token()) ==> r == Failure(NoTokenMessage) && sent == None
      ensures Truthy(Token()) ==>
                sent == Some(JsonRequest(IssueListPath, "GET", AuthHeaders(Token().value), NoBody))
                && r == Outcome(reply)
    {
      var token := GetToken();
      if !Truthy(token) {
        return Failure(NoTokenMessage), None;
      }
      sent := Some(JsonRequest(IssueListPath, "GET", AuthHeaders(token.value), NoBody));
      r := Outcome(reply);
    }

    /** `isAuthenticated`: `!!token`. */
    method IsAuthenticated() returns (b: bool)
      ensures b <==> storageUp && TokenKey in store && store[TokenKey] != ""
    {
      var token := GetToken();
      b := Truthy(token);
    }
  }
}
