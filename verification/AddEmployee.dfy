/**
 * The add-employee form (src/containers/employees/add-employee/add-employee.jsx): the picture
 * upload (validation, presigned URL, direct upload, preview) and the submit (payload build,
 * blank-field cleanup, create request, delayed reset). The salary field lives in SalaryInput.
 */
module AddEmployee {
  import opened Wrappers
  import opened Js
  import opened ApiHandler
  import Text
  import Browser

  /** The selected file: its name, MIME type and size in bytes. */
  datatype File = File(name: string, mime: string, size: nat)

  const TypeErrorMessage := "You can only upload JPG/PNG file!"
  const SizeErrorMessage := "Image must smaller than 2MB!"

  predicate IsJpgOrPng(file: File) { file.mime == "image/jpeg" || file.mime == "image/png" }

  /** `file.size / 1024 / 1024 < 2`, in floating-point division (exact for these magnitudes). */
  predicate IsLt2M(file: File) { (file.size as real) / 1024.0 / 1024.0 < 2.0 }

  /** beforeUpload: whether the file is accepted and the error toasts it shows, in order. */
  function BeforeUpload(file: File): (r: (bool, seq<string>))
    ensures r.0 <==> IsJpgOrPng(file) && file.size < 2 * 1024 * 1024
    ensures r.0 <==> r.1 == []
    ensures TypeErrorMessage in r.1 <==> !IsJpgOrPng(file)
    ensures SizeErrorMessage in r.1 <==> file.size >= 2 * 1024 * 1024
    ensures |r.1| <= 2 && (|r.1| == 2 ==> r.1 == [TypeErrorMessage, SizeErrorMessage])
  {
    var typeErrors := if IsJpgOrPng(file) then [] else [TypeErrorMessage];
    var sizeErrors := if IsLt2M(file) then [] else [SizeErrorMessage];
    (IsJpgOrPng(file) && IsLt2M(file), typeErrors + sizeErrors)
  }

  /** getPublicUrlFromKey: both branches return null, as written. */
  function PublicUrlFromKey(key: Value): (r: Value)
    ensures r == Null
  {
    if !Truthy(key) then Null else Null
  }

  /** The preview the upload settles on: the URL to keep (if any) and the image to show. */
  datatype Preview = Preview(profileUrl: Option<Value>, image: Value)

  /** Steps 4 of handleProfileChange: the backend's publicUrl, else one built from the key, else the local base64 preview. */
  function PreviewChoice(publicUrl: Value, key: Value, base64: string): (r: Preview)
    ensures Truthy(publicUrl) ==> r == Preview(Some(publicUrl), publicUrl)
    ensures !Truthy(publicUrl) ==> r == Preview(None, Str(base64))
  {
    var chosen := if !Truthy(publicUrl) && Truthy(key) then PublicUrlFromKey(key) else publicUrl;
    if Truthy(chosen) then Preview(Some(chosen), chosen) else Preview(None, Str(base64))
  }

  /** The key never matters: building a URL from it always gives null. */
  lemma PreviewIgnoresKey(publicUrl: Value, key: Value, base64: string)
    ensures PreviewChoice(publicUrl, key, base64) == PreviewChoice(publicUrl, Null, base64)
  {
  }

  /** The upload error toast's detail: server message, else the error's message, else "Unknown error". */
  function UploadErrorText(f: Failure): (r: string)
    ensures r != ""
    ensures f.serverMessage.Some? && f.serverMessage.value != "" ==> r == f.serverMessage.value
    ensures (f.serverMessage.None? || f.serverMessage.value == "") && f.message.Some? && f.message.value != "" ==>
      r == f.message.value
    ensures (f.serverMessage.None? || f.serverMessage.value == "") && (f.message.None? || f.message.value == "") ==>
      r == "Unknown error"
  {
    OrText(f.serverMessage, OrText(f.message, "Unknown error"))
  }

  /** `res.data || res`, or None when res is null or undefined and destructuring it throws. */
  function UploadTarget(res: Value): (r: Option<Value>)
    ensures r.None? <==> IsNullish(res)
    ensures r.Some? && Truthy(Member(res, "data")) ==> r.value == Member(res, "data")
    ensures r.Some? && !Truthy(Member(res, "data")) ==> r.value == res
  {
    if IsNullish(res) then None else Some(Or(Member(res, "data"), res))
  }

  /** A date picker value formatted as YYYY-MM-DD, or undefined when none was picked. */
  function DateText(picked: Value, formatDay: Value -> string): Value {
    if Truthy(picked) then Str(formatDay(picked)) else Undefined
  }

  /** The explicit properties onFinish writes over the form values. */
  function PayloadFields(values: Value, formatDay: Value -> string, key: Value, url: Value): seq<Entry> {
    [Entry("dateOfBirth", DateText(Member(values, "dateOfBirth"), formatDay)),
     Entry("joiningDate", DateText(Member(values, "joiningDate"), formatDay)),
     Entry("profilePictureKey", Or(key, Undefined)),
     Entry("profilePictureUrl", Or(url, Undefined))]
  }

  /** `{ ...values, dateOfBirth, joiningDate, profilePictureKey, profilePictureUrl }` */
  function RawPayload(values: Value, formatDay: Value -> string, key: Value, url: Value): seq<Entry> {
    AssignAll(SpreadProps(values), PayloadFields(values, formatDay, key, url))
  }

  /** The properties whose value is not undefined, null or '', in order. */
  function Compact(props: seq<Entry>): (r: seq<Entry>)
    ensures |r| <= |props|
    ensures forall i :: 0 <= i < |r| ==> !IsBlank(r[i].value)
  {
    if props == [] then []
    else (if IsBlank(props[0].value) then [] else [props[0]]) + Compact(props[1..])
  }

  lemma {:induction false} CompactSnoc(props: seq<Entry>, e: Entry)
    ensures Compact(props + [e]) == Compact(props) + (if IsBlank(e.value) then [] else [e])
  {
    if props == [] {
      assert props + [e] == [e];
    } else {
      assert (props + [e])[1..] == props[1..] + [e];
      CompactSnoc(props[1..], e);
    }
  }

  lemma {:induction false} CompactHasKey(props: seq<Entry>, key: string)
    ensures HasKey(Compact(props), key) ==> HasKey(props, key)
  {
    if props != [] {
      CompactHasKey(props[1..], key);
      HasKeyCons(props, key);
      if !IsBlank(props[0].value) {
        HasKeyCons(Compact(props), key);
        assert Compact(props)[1..] == Compact(props[1..]);
      } else {
        assert Compact(props) == Compact(props[1..]);
      }
    }
  }

  /**
   * Cleanup keeps exactly the properties whose value is not blank, values such as 0 and false
   * included, with the values they had.
   */
  lemma {:induction false} CompactLookup(props: seq<Entry>, key: string)
    requires DistinctKeys(props)
    ensures HasKey(Compact(props), key) <==> HasKey(props, key) && !IsBlank(Lookup(props, key))
    ensures HasKey(Compact(props), key) ==> Lookup(Compact(props), key) == Lookup(props, key)
  {
    if props != [] {
      var e, rest := props[0], props[1..];
      assert props == [e] + rest;
      DistinctCons(e, rest);
      CompactLookup(rest, key);
      HasKeyCons(props, key);
      if !IsBlank(e.value) {
        CompactKept(props);
      } else {
        assert Compact(props) == Compact(rest);
        if e.key == key {
          CompactHasKey(rest, key);
        }
      }
    }
  }

  /** A first property that is not blank stays first. */
  lemma CompactKept(props: seq<Entry>)
    requires props != [] && !IsBlank(props[0].value)
    ensures Compact(props) == [props[0]] + Compact(props[1..])
    ensures forall key :: HasKey(Compact(props), key) <==> props[0].key == key || HasKey(Compact(props[1..]), key)
    ensures forall key :: props[0].key != key ==> Lookup(Compact(props), key) == Lookup(Compact(props[1..]), key)
    ensures Lookup(Compact(props), props[0].key) == props[0].value
  {
    forall key ensures HasKey(Compact(props), key) <==> props[0].key == key || HasKey(Compact(props[1..]), key)
      ensures props[0].key != key ==> Lookup(Compact(props), key) == Lookup(Compact(props[1..]), key)
    {
      HasKeyCons(Compact(props), key);
      assert Compact(props)[1..] == Compact(props[1..]);
    }
  }

  /** With distinct names, the i-th property's name occurs neither before nor after it. */
  lemma UniqueAt(payload: seq<Entry>, i: nat)
    requires DistinctKeys(payload) && i < |payload|
    ensures !HasKey(payload[..i], payload[i].key) && !HasKey(payload[i + 1..], payload[i].key)
  {
    forall j | 0 <= j < i
      ensures payload[..i][j].key != payload[i].key
    {
      assert payload[..i][j] == payload[j];
    }
    var rest := payload[i + 1..];
    forall j | 0 <= j < |rest|
      ensures rest[j].key != payload[i].key
    {
      assert rest[j] == payload[i + 1 + j];
    }
  }

  /** One step of the cleanup loop: looking at the i-th key moves the i-th property to the cleaned part. */
  lemma CleanupStep(payload: seq<Entry>, i: nat)
    requires DistinctKeys(payload) && i < |payload|
    ensures var r, key := Compact(payload[..i]) + payload[i..], payload[i].key;
      && (IsBlank(Lookup(r, key)) ==> RemoveKey(r, key) == Compact(payload[..i + 1]) + payload[i + 1..])
      && (!IsBlank(Lookup(r, key)) ==> r == Compact(payload[..i + 1]) + payload[i + 1..])
  {
    var key := payload[i].key;
    var e, rest := payload[i], payload[i + 1..];
    var done := Compact(payload[..i]);
    var r := done + payload[i..];
    assert payload[i..] == [e] + rest;
    assert !HasKey(done, key) && !HasKey(rest, key) by {
      UniqueAt(payload, i);
      CompactHasKey(payload[..i], key);
    }
    assert Lookup(r, key) == e.value by {
      LookupConcat(done, payload[i..], key);
    }
    assert Compact(payload[..i + 1]) == done + (if IsBlank(e.value) then [] else [e]) by {
      assert payload[..i + 1] == payload[..i] + [e];
      CompactSnoc(payload[..i], e);
    }
    if IsBlank(e.value) {
      assert RemoveKey(r, key) == done + rest by {
        RemoveKeyConcat(done, payload[i..], key);
        RemoveKeyConcat([e], rest, key);
        RemoveKeyAbsent(done, key);
        RemoveKeyAbsent(rest, key);
        assert RemoveKey([e], key) == [];
      }
    } else {
      assert r == done + [e] + rest by {
      }
    }
  }

  /** The cleanup loop over `Object.keys(payload)`, deleting each blank property. */
  method RemoveBlankFields(payload: seq<Entry>) returns (r: seq<Entry>)
    requires DistinctKeys(payload)
    ensures r == Compact(payload)
  {
    var keys := Keys(payload);
    r := payload;
    for i := 0 to |keys|
      invariant r == Compact(payload[..i]) + payload[i..]
    {
      assert keys[i] == payload[i].key;
      CleanupStep(payload, i);
      if IsBlank(Lookup(r, keys[i])) {
        r := RemoveKey(r, keys[i]);
      }
    }
    assert payload[..|keys|] == payload;
  }

  /** The request body onFinish sends. */
  function Payload(values: Value, formatDay: Value -> string, key: Value, url: Value): seq<Entry> {
    Compact(RawPayload(values, formatDay, key, url))
  }

  /** A property of the payload is the cleaned-up property of the raw one. */
  lemma PayloadLookup(values: Value, formatDay: Value -> string, key: Value, url: Value, name: string)
    requires DistinctKeys(SpreadProps(values))
    ensures var raw, p := RawPayload(values, formatDay, key, url), Payload(values, formatDay, key, url);
      && (HasKey(p, name) <==> HasKey(raw, name) && !IsBlank(Lookup(raw, name)))
      && (HasKey(p, name) ==> Lookup(p, name) == Lookup(raw, name))
  {
    AssignAllDistinct(SpreadProps(values), PayloadFields(values, formatDay, key, url));
    CompactLookup(RawPayload(values, formatDay, key, url), name);
  }

  /** A raw payload property is the explicit field where there is one, else the form value. */
  lemma RawLookup(values: Value, formatDay: Value -> string, key: Value, url: Value, name: string)
    requires DistinctKeys(SpreadProps(values))
    ensures var raw, fields := RawPayload(values, formatDay, key, url), PayloadFields(values, formatDay, key, url);
      && HasKey(raw, name) == (HasKey(fields, name) || HasKey(SpreadProps(values), name))
      && Lookup(raw, name) == (if HasKey(fields, name) then Lookup(fields, name) else Member(values, name))
  {
    var fields := PayloadFields(values, formatDay, key, url);
    assert DistinctKeys(fields);
    LookupAssignAll(SpreadProps(values), fields, name);
  }

  /** A date appears in the payload only when one was picked, formatted by formatDay. */
  lemma PayloadDates(values: Value, formatDay: Value -> string, key: Value, url: Value, name: string)
    requires DistinctKeys(SpreadProps(values))
    requires name == "dateOfBirth" || name == "joiningDate"
    ensures var p := Payload(values, formatDay, key, url);
      && (HasKey(p, name) <==> Truthy(Member(values, name)) && formatDay(Member(values, name)) != "")
      && (HasKey(p, name) ==> Lookup(p, name) == Str(formatDay(Member(values, name))))
  {
    PayloadLookup(values, formatDay, key, url, name);
    RawLookup(values, formatDay, key, url, name);
    FieldsLookup(values, formatDay, key, url, name);
  }

  /** The picture's key and URL appear only when the upload produced truthy ones. */
  lemma PayloadPicture(values: Value, formatDay: Value -> string, key: Value, url: Value, name: string)
    requires DistinctKeys(SpreadProps(values))
    requires name == "profilePictureKey" || name == "profilePictureUrl"
    ensures var p, v := Payload(values, formatDay, key, url), if name == "profilePictureKey" then key else url;
      && (HasKey(p, name) <==> Truthy(v))
      && (HasKey(p, name) ==> Lookup(p, name) == v)
  {
    PayloadLookup(values, formatDay, key, url, name);
    RawLookup(values, formatDay, key, url, name);
    FieldsLookup(values, formatDay, key, url, name);
  }

  /** Every other form value is carried unchanged unless it is undefined, null or ''; 0 and false survive. */
  lemma PayloadOtherFields(values: Value, formatDay: Value -> string, key: Value, url: Value, name: string)
    requires DistinctKeys(SpreadProps(values))
    requires name !in {"dateOfBirth", "joiningDate", "profilePictureKey", "profilePictureUrl"}
    ensures var p := Payload(values, formatDay, key, url);
      && (HasKey(p, name) <==> HasKey(SpreadProps(values), name) && !IsBlank(Member(values, name)))
      && (HasKey(p, name) ==> Lookup(p, name) == Member(values, name))
  {
    PayloadLookup(values, formatDay, key, url, name);
    RawLookup(values, formatDay, key, url, name);
    FieldsLookup(values, formatDay, key, url, name);
  }

  lemma FieldsLookup(values: Value, formatDay: Value -> string, key: Value, url: Value, name: string)
    ensures var fields := PayloadFields(values, formatDay, key, url);
      && (HasKey(fields, name) <==> name in {"dateOfBirth", "joiningDate", "profilePictureKey", "profilePictureUrl"})
      && (name == "dateOfBirth" ==> Lookup(fields, name) == fields[0].value)
      && (name == "joiningDate" ==> Lookup(fields, name) == fields[1].value)
      && (name == "profilePictureKey" ==> Lookup(fields, name) == fields[2].value)
      && (name == "profilePictureUrl" ==> Lookup(fields, name) == fields[3].value)
  {
    var fields := PayloadFields(values, formatDay, key, url);
    HasKeyCons(fields, name);
    HasKeyCons(fields[1..], name);
    HasKeyCons(fields[2..], name);
    HasKeyCons(fields[3..], name);
    assert fields[1..][1..] == fields[2..] && fields[2..][1..] == fields[3..] && fields[3..][1..] == [];
  }

  /** How the direct upload to the presigned URL went. */
  datatype Put = Put(url: Value, file: File)

  const UploadUrlPath := "/users/upload-url"
  const UploadedText := "Profile picture uploaded successfully!"
  const UploadFailedPrefix := "Failed to upload profile picture: "
  const CreatePath := "/users/create-employee"

  function UploadUrlCall(file: File): Call {
    PostCall(UploadUrlPath, Json(Obj([Entry("fileName", Str(file.name)), Entry("fileType", Str(file.mime))])), false, false)
  }

  /** The picture state of the form: the preview shown, the stored key and the kept public URL. */
  datatype Picture = Picture(imageUrl: Value, key: Value, url: Value)

  /**
   * The error handleProfileChange's catch receives, given how the presigned-URL request settled
   * and how the direct upload went: the request's rejection, the TypeError of destructuring a
   * nullish response, or the upload's failure. None when every step succeeded.
   */
  function UploadFailure(c: Completion, put: Outcome, typeError: Failure): (r: Option<Failure>)
    ensures r.None? <==> c.Resolved? && !IsNullish(c.value) && put.Succeeded?
    ensures c.Rejected? ==> r == Some(c.failure)
    ensures c.Resolved? && IsNullish(c.value) ==> r == Some(typeError)
    ensures c.Resolved? && !IsNullish(c.value) && put.Failed? ==> r == Some(put.failure)
  {
    if c.Rejected? then Some(c.failure)
    else if UploadTarget(c.value).None? then Some(typeError)
    else if put.Failed? then Some(put.failure)
    else None
  }

  /**
   * Steps 2 to 4 of handleProfileChange and its catch, once the presigned-URL request has
   * settled as c: the picture state afterwards, the direct uploads sent and the one toast shown.
   */
  function UploadEffect(p: Picture, c: Completion, file: File, put: Outcome, base64: string, typeError: Failure): (r: (Picture, seq<Put>, Browser.Notice))
    ensures r.2 == Browser.Success(UploadedText) <==> UploadFailure(c, put, typeError).None?
    ensures UploadFailure(c, put, typeError).Some? ==>
      r.0 == p && r.2 == Browser.Failure(UploadFailedPrefix + UploadErrorText(UploadFailure(c, put, typeError).value))
    ensures c.Resolved? && !IsNullish(c.value) ==>
      r.1 == [Put(Member(UploadTarget(c.value).value, "uploadUrl"), file)]
    ensures c.Rejected? || IsNullish(c.value) ==> r.1 == []
    ensures UploadFailure(c, put, typeError).None? ==>
      var target := UploadTarget(c.value).value;
      var preview := PreviewChoice(Member(target, "publicUrl"), Member(target, "key"), base64);
      && r.0.key == Member(target, "key")
      && r.0.imageUrl == preview.image
      && r.0.url == (if preview.profileUrl.Some? then preview.profileUrl.value else p.url)
  {
    var failure := UploadFailure(c, put, typeError);
    var puts := if c.Rejected? || UploadTarget(c.value).None? then []
      else [Put(Member(UploadTarget(c.value).value, "uploadUrl"), file)];
    if failure.Some? then
      (p, puts, Browser.Failure(UploadFailedPrefix + UploadErrorText(failure.value)))
    else
      var target := UploadTarget(c.value).value;
      var preview := PreviewChoice(Member(target, "publicUrl"), Member(target, "key"), base64);
      var url := if preview.profileUrl.Some? then preview.profileUrl.value else p.url;
      (Picture(preview.image, Member(target, "key"), url), puts, Browser.Success(UploadedText))
  }

  /**
   * The success toast shows exactly when the presigned-URL request could be sent (a base URL is
   * configured), resolved with a non-nullish body, and the direct upload succeeded.
   */
  lemma UploadSucceedsExactly(p: Picture, file: File, token: Option<string>, base: Option<string>,
                              uploadUrl: Outcome, put: Outcome, base64: string, typeError: Failure)
    ensures var call := UploadUrlCall(file);
      var e := UploadEffect(p, CompletionOf(call, Effective(Dispatch(call, token, base), uploadUrl)), file, put, base64, typeError);
      e.2 == Browser.Success(UploadedText) <==>
        BaseDefined(base) && uploadUrl.Succeeded? && !IsNullish(uploadUrl.body) && put.Succeeded?
  {
    var call := UploadUrlCall(file);
    var d := Dispatch(call, token, base);
    assert d.Err? <==> !BaseDefined(base);
    var c := CompletionOf(call, Effective(d, uploadUrl));
    assert c.Resolved? <==> d.Ok? && uploadUrl.Succeeded?;
    if c.Resolved? {
      assert c.value == uploadUrl.body;
    }
  }

  /** The form's state and the services it uses. */
  class Form {
    var imageUrl: Value
    var profilePictureKey: Value
    var profilePictureUrl: Value
    var uploadLoading: bool
    /** Reset timers scheduled by successful submits and not yet fired. */
    var pendingResets: nat
    /** Direct uploads sent to storage, oldest first. */
    var puts: seq<Put>
    const api: Handler
    const notices: Browser.Notices
    const router: Browser.Navigator

    function Pictured(): Picture
      reads this
    {
      Picture(imageUrl, profilePictureKey, profilePictureUrl)
    }

    constructor (api: Handler, notices: Browser.Notices, router: Browser.Navigator)
      ensures this.api == api && this.notices == notices && this.router == router
      ensures imageUrl == Null && profilePictureKey == Null && profilePictureUrl == Null
      ensures !uploadLoading && pendingResets == 0 && puts == []
    {
      this.api := api;
      this.notices := notices;
      this.router := router;
      imageUrl := Null;
      profilePictureKey := Null;
      profilePictureUrl := Null;
      uploadLoading := false;
      pendingResets := 0;
      puts := [];
    }

    /**
     * The Upload's beforeUpload hook: the validation toasts, then the upload only for a valid
     * file; it returns false so the Upload never sends the file itself.
     */
    method Select(file: File, uploadUrl: Outcome, put: Outcome, base64: string, typeError: Failure) returns (autoUpload: bool)
      modifies this, api, notices
      ensures !autoUpload
      ensures uploadLoading == (old(uploadLoading) && !BeforeUpload(file).0) && pendingResets == old(pendingResets)
      ensures !BeforeUpload(file).0 ==>
        && notices.shown == old(notices.shown) + Failures(BeforeUpload(file).1)
        && api.sent == old(api.sent) && api.Current() == old(api.Current())
        && puts == old(puts) && Pictured() == old(Pictured())
      ensures BeforeUpload(file).0 ==>
        var call := UploadUrlCall(file);
        var d := Dispatch(call, api.token, api.baseUrl);
        var e := UploadEffect(old(Pictured()), CompletionOf(call, Effective(d, uploadUrl)), file, put, base64, typeError);
        && api.sent == old(api.sent) + (if d.Ok? then [d.value] else [])
        && api.Current() == Settled(Started(old(api.Current()), call), call, Effective(d, uploadUrl))
        && Pictured() == e.0 && puts == old(puts) + e.1 && notices.shown == old(notices.shown) + [e.2]
    {
      if !IsJpgOrPng(file) {
        notices.Show(Browser.Failure(TypeErrorMessage));
      }
      if !IsLt2M(file) {
        notices.Show(Browser.Failure(SizeErrorMessage));
      }
      assert notices.shown == old(notices.shown) + Failures(BeforeUpload(file).1);
      if BeforeUpload(file).0 {
        HandleProfileChange(file, uploadUrl, put, base64, typeError);
      }
      autoUpload := false;
    }

    /**
     * Steps 2 to 4 of handleProfileChange, once the presigned URL is known: the direct upload,
     * then the key, the public URL and the preview. None when everything succeeded.
     */
    method StoreUpload(target: Value, file: File, put: Outcome, base64: string) returns (failure: Option<Failure>)
      modifies this, notices
      ensures puts == old(puts) + [Put(Member(target, "uploadUrl"), file)]
      ensures failure.Some? <==> put.Failed?
      ensures failure.Some? ==>
        && failure.value == put.failure && notices.shown == old(notices.shown)
        && profilePictureKey == old(profilePictureKey) && profilePictureUrl == old(profilePictureUrl) && imageUrl == old(imageUrl)
      ensures failure.None? ==>
        var preview := PreviewChoice(Member(target, "publicUrl"), Member(target, "key"), base64);
        && notices.shown == old(notices.shown) + [Browser.Success(UploadedText)]
        && profilePictureKey == Member(target, "key")
        && profilePictureUrl == (if preview.profileUrl.Some? then preview.profileUrl.value else old(profilePictureUrl))
        && imageUrl == preview.image
      ensures uploadLoading == old(uploadLoading) && pendingResets == old(pendingResets)
    {
      puts := puts + [Put(Member(target, "uploadUrl"), file)];
      if put.Failed? {
        return Some(put.failure);
      }
      var key := Member(target, "key");
      profilePictureKey := key;
      var preview := PreviewChoice(Member(target, "publicUrl"), key, base64);
      if preview.profileUrl.Some? {
        profilePictureUrl := preview.profileUrl.value;
      }
      imageUrl := preview.image;
      notices.Show(Browser.Success(UploadedText));
      failure := None;
    }

    /**
     * handleProfileChange(file) with the presigned-URL response, the direct upload's outcome,
     * the file's base64 preview and the TypeError destructuring a null response throws.
     */
    method HandleProfileChange(file: File, uploadUrl: Outcome, put: Outcome, base64: string, typeError: Failure)
      modifies this, api, notices
      ensures !uploadLoading && pendingResets == old(pendingResets)
      ensures var call := UploadUrlCall(file);
        var d := Dispatch(call, api.token, api.baseUrl);
        var e := UploadEffect(old(Pictured()), CompletionOf(call, Effective(d, uploadUrl)), file, put, base64, typeError);
        && api.sent == old(api.sent) + (if d.Ok? then [d.value] else [])
        && api.Current() == Settled(Started(old(api.Current()), call), call, Effective(d, uploadUrl))
        && Pictured() == e.0 && puts == old(puts) + e.1 && notices.shown == old(notices.shown) + [e.2]
    {
      uploadLoading := true;
      var c := api.Perform(UploadUrlCall(file), uploadUrl);
      var failure: Option<Failure>;
      if c.Rejected? {
        failure := Some(c.failure);
      } else {
        var target := UploadTarget(c.value);
        if target.None? {
          failure := Some(typeError);
        } else {
          failure := StoreUpload(target.value, file, put, base64);
        }
      }
      if failure.Some? {
        notices.Show(Browser.Failure(UploadFailedPrefix + UploadErrorText(failure.value)));
      }
      uploadLoading := false;
    }

    /**
     * onFinish(values): build and clean the payload, create the employee, and on success toast
     * and schedule the reset; on failure nothing further happens here.
     */
    method OnFinish(values: Value, formatDay: Value -> string, create: Outcome)
      requires DistinctKeys(SpreadProps(values))
      modifies this, api, notices
      ensures var call := PostCall(CreatePath, Json(Obj(Payload(values, formatDay, old(profilePictureKey), old(profilePictureUrl)))), false, false);
        var d := Dispatch(call, api.token, api.baseUrl);
        && api.sent == old(api.sent) + (if d.Ok? then [d.value] else [])
        && api.Current() == Settled(Started(old(api.Current()), call), call, Effective(d, create))
        && (Effective(d, create).Succeeded? ==>
              notices.shown == old(notices.shown) + [Browser.Success("Employee added successfully")] && pendingResets == old(pendingResets) + 1)
        && (Effective(d, create).Failed? ==> notices.shown == old(notices.shown) && pendingResets == old(pendingResets))
      ensures Pictured() == old(Pictured()) && uploadLoading == old(uploadLoading) && puts == old(puts)
    {
      var raw := RawPayload(values, formatDay, profilePictureKey, profilePictureUrl);
      AssignAllDistinct(SpreadProps(values), PayloadFields(values, formatDay, profilePictureKey, profilePictureUrl));
      var payload := RemoveBlankFields(raw);
      var c := api.Perform(PostCall(CreatePath, Json(Obj(payload)), false, false), create);
      if c.Resolved? {
        notices.Show(Browser.Success("Employee added successfully"));
        pendingResets := pendingResets + 1;
      }
    }

    /** The 1500 ms timer after a successful submit: clear the picture state and go to the dashboard. */
    method ResetTimerFires()
      requires pendingResets > 0
      modifies this, router
      ensures pendingResets == old(pendingResets) - 1
      ensures imageUrl == Null && profilePictureKey == Null && profilePictureUrl == Null
      ensures router.visits == old(router.visits) + [Browser.Visit("/dashboard", false)]
    {
      imageUrl := Null;
      profilePictureKey := Null;
      profilePictureUrl := Null;
      router.Navigate("/dashboard", false);
      pendingResets := pendingResets - 1;
    }
  }

  /** The error toasts for a list of messages. */
  function Failures(messages: seq<string>): seq<Browser.Notice> {
    seq(|messages|, i requires 0 <= i < |messages| => Browser.Failure(messages[i]))
  }

  /** The reset delay after a successful submit, in milliseconds. */
  const ResetDelay := 1500
}
