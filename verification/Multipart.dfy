/**
 * multipart/form-data requests of the coroutine HTTP client
 * (ext-src/swoole_http_client_coro.cc, `send_request`, `addFile`, `addData`): the length is
 * counted in one pass over the form and the uploads, and the body is sent in another.
 * Characters stand for octets.
 */
module Multipart {
  import opened Prelude

  const BOUNDARY_SIZE := 39                  // SW_HTTP_CLIENT_BOUNDARY_TOTAL_SIZE
  const HEADER_BUF_SIZE := 2048
  const CRLF := "\r\n"
  const DIRECTIVE := "%.*s"

  // SW_HTTP_FORM_RAW_DATA_FMT and SW_HTTP_FORM_FILE_DATA_FMT, between their directives
  const DASHES := "--"
  const DISPOSITION := "\r\nContent-Disposition: form-data; name=\""
  const RAW_END := "\"\r\n\r\n"
  const FILENAME := "\"; filename=\""
  const CONTENT_TYPE := "\"\r\nContent-Type: "
  const FILE_END := "\r\n\r\n"
  const RAW_DATA_FMT := DASHES + DIRECTIVE + DISPOSITION + DIRECTIVE + RAW_END
  const RAW_DATA_FMT_LEN := 8
  const FILE_DATA_FMT :=
    DASHES + DIRECTIVE + DISPOSITION + DIRECTIVE + FILENAME + DIRECTIVE + CONTENT_TYPE + DIRECTIVE + FILE_END
  const FILE_DATA_FMT_LEN := 16

  /** An element of the form array: numeric keys and null values are skipped. */
  datatype Field = Field(key: Option<string>, value: Option<string>)

  /** An element of `uploadFiles`, which an application may also have put there itself. */
  datatype Upload =
    | NotArray
    | Upload(name: Option<string>, filename: Option<string>, mime: Option<string>, size: Option<nat>,
             content: Option<string>, path: Option<string>, offset: Option<nat>)

  type Disk = map<string, string>

  // ------------------------------------------------------------- part headers

  /** What `%.*s` prints of an argument: it stops at a NUL. */
  function Printed(s: string): (r: string)
    ensures |r| <= |s| && (|r| == |s| <==> '\0' !in s)
  {
    if s == "" || s[0] == '\0' then "" else [s[0]] + Printed(s[1..])
  }

  lemma {:induction false} PrintedWhole(s: string)
    requires '\0' !in s
    ensures Printed(s) == s
  {
    if s != "" {
      PrintedWhole(s[1..]);
    }
  }

  /** What `sw_snprintf` leaves in `header_buf` of a formatted text. */
  function Fitted(s: string): string {
    if |s| >= HEADER_BUF_SIZE then s[..HEADER_BUF_SIZE - 1] else s
  }

  /** A text is cut off from the size of the buffer on, which keeps room for the final NUL. */
  lemma FittedIs(s: string)
    ensures Fitted(s) <= s && |Fitted(s)| < 2048
    ensures Fitted(s) == s <==> |s| < 2048
    ensures |s| >= 2048 ==> |Fitted(s)| == 2047
  {
  }

  function RawHeader(boundary: string, key: string): string {
    Fitted(DASHES + Printed(boundary) + DISPOSITION + Printed(key) + RAW_END)
  }

  function FileHeader(boundary: string, name: string, filename: string, mime: string): string {
    Fitted(DASHES + Printed(boundary) + DISPOSITION + Printed(name) + FILENAME + Printed(filename)
           + CONTENT_TYPE + Printed(mime) + FILE_END)
  }

  // ----------------------------------------------------- what is counted, what is sent

  predicate Skipped(f: Field) {
    f.key.None? || f.value.None?
  }

  function CountedField(f: Field): nat {
    if Skipped(f) then 0
    else |RAW_DATA_FMT| - RAW_DATA_FMT_LEN + BOUNDARY_SIZE + |f.key.value| + |f.value.value| + 2
  }

  function SentField(boundary: string, f: Field): string {
    if Skipped(f) then "" else RawHeader(boundary, f.key.value) + f.value.value + CRLF
  }

  predicate CountsUpload(u: Upload) {
    u.Upload? && u.name.Some? && u.filename.Some? && u.size.Some? && u.mime.Some?
  }

  predicate SendsUpload(u: Upload) {
    CountsUpload(u) && (u.content.Some? || (u.path.Some? && u.offset.Some?))
  }

  function CountedUpload(u: Upload): nat {
    if !CountsUpload(u) then 0
    else |FILE_DATA_FMT| - FILE_DATA_FMT_LEN + BOUNDARY_SIZE
         + |u.name.value| + |u.filename.value| + |u.mime.value| + u.size.value + 2
  }

  /** The octets of the upload itself: its content, or the stretch of the file on disk. */
  function Payload(disk: Disk, u: Upload): string
    requires SendsUpload(u)
  {
    if u.content.Some? then u.content.value
    else if u.path.value in disk && u.offset.value + u.size.value <= |disk[u.path.value]| then
      disk[u.path.value][u.offset.value..u.offset.value + u.size.value]
    else ""
  }

  function SentUpload(boundary: string, disk: Disk, u: Upload): string {
    if !SendsUpload(u) then ""
    else FileHeader(boundary, u.name.value, u.filename.value, u.mime.value) + Payload(disk, u) + CRLF
  }

  function CountedForm(form: seq<Field>): nat {
    if form == [] then 0 else CountedField(form[0]) + CountedForm(form[1..])
  }

  function SentForm(boundary: string, form: seq<Field>): string {
    Flatten((f: Field) => SentField(boundary, f), form)
  }

  function CountedUploads(uploads: seq<Upload>): nat {
    if uploads == [] then 0 else CountedUpload(uploads[0]) + CountedUploads(uploads[1..])
  }

  function SentUploads(boundary: string, disk: Disk, uploads: seq<Upload>): string {
    Flatten((u: Upload) => SentUpload(boundary, disk, u), uploads)
  }

  function Closing(boundary: string): string {
    Fitted(DASHES + Printed(boundary) + DASHES + CRLF)
  }

  /** The Content-Length announced. */
  function Announced(form: seq<Field>, uploads: seq<Upload>): nat {
    CountedForm(form) + CountedUploads(uploads) + BOUNDARY_SIZE + 6
  }

  /** The body sent. */
  function Sent(boundary: string, disk: Disk, form: seq<Field>, uploads: seq<Upload>): string {
    SentForm(boundary, form) + SentUploads(boundary, disk, uploads) + Closing(boundary)
  }

  // --------------------------------------------------------------- agreement

  /** The part header of a field is sent as it was counted. */
  predicate FieldFits(f: Field) {
    Skipped(f) ||
    ('\0' !in f.key.value && |RAW_DATA_FMT| - RAW_DATA_FMT_LEN + BOUNDARY_SIZE + |f.key.value| < HEADER_BUF_SIZE)
  }

  predicate UploadFits(u: Upload) {
    !CountsUpload(u) ||
    ('\0' !in u.name.value && '\0' !in u.filename.value && '\0' !in u.mime.value
     && |FILE_DATA_FMT| - FILE_DATA_FMT_LEN + BOUNDARY_SIZE + |u.name.value| + |u.filename.value| + |u.mime.value|
        < HEADER_BUF_SIZE)
  }

  /** An upload as `addFile` and `addData` make it, the file still being what it was. */
  predicate Genuine(disk: Disk, u: Upload) {
    && SendsUpload(u)
    && (if u.content.Some? then u.size.value == |u.content.value|
        else u.path.value in disk && u.offset.value + u.size.value <= |disk[u.path.value]|)
  }

  predicate Boundary(b: string) {
    |b| == BOUNDARY_SIZE && '\0' !in b
  }

  lemma FieldAgrees(boundary: string, f: Field)
    requires Boundary(boundary)
    ensures |SentField(boundary, f)| <= CountedField(f)
    ensures |SentField(boundary, f)| == CountedField(f) <==> FieldFits(f)
  {
  }

  lemma UploadAgrees(boundary: string, disk: Disk, u: Upload)
    requires Boundary(boundary) && Genuine(disk, u)
    ensures |SentUpload(boundary, disk, u)| <= CountedUpload(u)
    ensures |SentUpload(boundary, disk, u)| == CountedUpload(u) <==> UploadFits(u)
  {
  }

  lemma {:induction false} FormAgrees(boundary: string, form: seq<Field>)
    requires Boundary(boundary)
    ensures |SentForm(boundary, form)| <= CountedForm(form)
    ensures |SentForm(boundary, form)| == CountedForm(form) <==> forall f :: f in form ==> FieldFits(f)
  {
    if form != [] {
      FieldAgrees(boundary, form[0]);
      FormAgrees(boundary, form[1..]);
      assert form == [form[0]] + form[1..];
    }
  }

  lemma {:induction false} UploadsAgree(boundary: string, disk: Disk, uploads: seq<Upload>)
    requires Boundary(boundary) && forall u :: u in uploads ==> Genuine(disk, u)
    ensures |SentUploads(boundary, disk, uploads)| <= CountedUploads(uploads)
    ensures |SentUploads(boundary, disk, uploads)| == CountedUploads(uploads) <==>
              forall u :: u in uploads ==> UploadFits(u)
  {
    if uploads != [] {
      UploadAgrees(boundary, disk, uploads[0]);
      UploadsAgree(boundary, disk, uploads[1..]);
      assert uploads == [uploads[0]] + uploads[1..];
    }
  }

  /** The announced length is that of the body exactly when every part header fits its buffer and has no NUL. */
  lemma LengthAgrees(boundary: string, disk: Disk, form: seq<Field>, uploads: seq<Upload>)
    requires Boundary(boundary) && forall u :: u in uploads ==> Genuine(disk, u)
    ensures |Sent(boundary, disk, form, uploads)| <= Announced(form, uploads)
    ensures |Sent(boundary, disk, form, uploads)| == Announced(form, uploads) <==>
              (forall f :: f in form ==> FieldFits(f)) && (forall u :: u in uploads ==> UploadFits(u))
  {
    FormAgrees(boundary, form);
    UploadsAgree(boundary, disk, uploads);
  }

  /** A form of one field with a key of 2048 octets, or with a NUL in its key, sends less than it announces. */
  lemma LongKeyIsShort(boundary: string, key: string, value: string)
    requires Boundary(boundary) && (key == seq(2048, _ => 'k') || key == ['\0'])
    ensures var form := [Field(Some(key), Some(value))];
            |Sent(boundary, map[], form, [])| < Announced(form, [])
  {
    var f := Field(Some(key), Some(value));
    assert !FieldFits(f) && f in [f];
    LengthAgrees(boundary, map[], [f], []);
  }

  /** Then the parts carry the names the application gave them. */
  lemma FittingFieldIsWhole(boundary: string, f: Field)
    requires Boundary(boundary) && FieldFits(f)
    ensures SentField(boundary, f) ==
            if f.key.None? || f.value.None? then "" else
            DASHES + boundary + DISPOSITION + f.key.value + RAW_END + f.value.value + CRLF
  {
    PrintedWhole(boundary);
    if f.key.Some? && f.value.Some? {
      PrintedWhole(f.key.value);
    }
  }

  lemma FittingUploadIsWhole(boundary: string, disk: Disk, u: Upload)
    requires Boundary(boundary) && Genuine(disk, u) && UploadFits(u)
    ensures SentUpload(boundary, disk, u) ==
            DASHES + boundary + DISPOSITION + u.name.value + FILENAME + u.filename.value + CONTENT_TYPE + u.mime.value
            + FILE_END
            + (if u.content.Some? then u.content.value
               else disk[u.path.value][u.offset.value..u.offset.value + u.size.value])
            + CRLF
  {
    PrintedWhole(boundary);
    PrintedWhole(u.name.value);
    PrintedWhole(u.filename.value);
    PrintedWhole(u.mime.value);
  }

  /** Whether an upload can be sent at all, and in how many sends. */
  predicate Sendable(disk: Disk, u: Upload) {
    && u.Upload?
    && (SendsUpload(u) && u.content.None? ==>
          u.path.value in disk && u.offset.value + u.size.value <= |disk[u.path.value]|)
  }

  function SendsOf(u: Upload): nat {
    if !SendsUpload(u) then 0 else if u.content.Some? then 1 else 3
  }

  function SendsOfAll(uploads: seq<Upload>): nat {
    if uploads == [] then 0 else SendsOfAll(uploads[..|uploads| - 1]) + SendsOf(uploads[|uploads| - 1])
  }

  lemma {:induction false} SendsGrow(uploads: seq<Upload>, i: nat)
    requires i < |uploads|
    ensures SendsOfAll(uploads[..i + 1]) == SendsOfAll(uploads[..i]) + SendsOf(uploads[i])
    ensures SendsOfAll(uploads[..i + 1]) <= SendsOfAll(uploads)
    decreases |uploads| - i
  {
    assert uploads[..i + 1][..i] == uploads[..i];
    if i + 1 < |uploads| {
      SendsGrow(uploads, i + 1);
    } else {
      assert uploads[..i + 1] == uploads;
    }
  }

  predicate AllSendable(disk: Disk, uploads: seq<Upload>) {
    forall u :: u in uploads ==> Sendable(disk, u)
  }

  lemma BodyInOrder<T>(wire: seq<T>, head: seq<T>, form: seq<T>, uploads: seq<T>, closing: seq<T>)
    ensures ((wire + (head + form)) + uploads) + closing == wire + head + (form + uploads + closing)
  {
  }

  // --------------------------------------------------------------- the client

  /** `addData`: an upload from memory. */
  function AddData(data: string, name: string, mime: string, filename: string): (u: Upload)
    ensures forall disk: Disk :: Genuine(disk, u)
    ensures u.content == Some(data) && u.name == Some(name)
    ensures u.filename == Some(if filename == "" then name else filename) && u.mime.Some?
    ensures mime != "" ==> u.mime == Some(mime)
  {
    Upload(Some(name), Some(if filename == "" then name else filename),
           Some(if mime == "" then "application/octet-stream" else mime), Some(|data|), Some(data), None, None)
  }

  /** `addFile`: an upload from disk, if the stretch asked for is there and not empty. */
  method AddFile(disk: Disk, path: string, name: string, mime: string, filename: string, offset: int, length: int,
                 guessed: string) returns (u: Option<Upload>)
    ensures u.Some? ==> Genuine(disk, u.value) && u.value.size.value > 0
    ensures u.Some? ==> u.value.path == Some(path) && u.value.offset == Some(offset) && u.value.content.None?
    ensures u.Some? ==> u.value.name == Some(name) && u.value.mime == Some(if mime == "" then guessed else mime)
    ensures u.Some? && filename != "" ==> u.value.filename == Some(filename)
    ensures u.Some? && filename == "" ==> LastComponent(path, u.value.filename.value)
    ensures u.Some? && length != 0 ==> u.value.size == Some(length)
    ensures u.Some? && length == 0 ==> path in disk && offset + u.value.size.value == |disk[path]|
    ensures u.None? <==>
              offset < 0 || length < 0 || path !in disk || |disk[path]| <= offset || length > |disk[path]| - offset
  {
    if offset < 0 || length < 0 || path !in disk {
      return None;
    }
    var size := |disk[path]|;
    if size == 0 || size <= offset || length > size - offset {
      return None;
    }
    var n := if length == 0 then size - offset else length;
    var base := BaseName(path);
    return Some(Upload(Some(name), Some(if filename == "" then base else filename),
                       Some(if mime == "" then guessed else mime), Some(n), None, Some(path), Some(offset)));
  }

  /** What follows the last slash, or all of it. */
  ghost predicate LastComponent(path: string, base: string) {
    && '/' !in base && |base| <= |path| && base == path[|path| - |base|..]
    && (base == path || (|base| < |path| && path[|path| - |base| - 1] == '/'))
  }

  /** The last component of a path. */
  method BaseName(path: string) returns (base: string)
    ensures LastComponent(path, base)
  {
    var i := |path|;
    while i > 0 && path[i - 1] != '/'
      invariant 0 <= i <= |path| && '/' !in path[i..]
    {
      assert path[i - 1..] == [path[i - 1]] + path[i..];
      i := i - 1;
    }
    base := path[i..];
  }

  class Client {
    var buffer: string                       // the write buffer
    var wire: string
    var sends: nat                           // how many more sends succeed

    constructor (sends: nat)
      ensures wire == "" && buffer == "" && this.sends == sends
    {
      buffer, wire, this.sends := "", "", sends;
    }

    method SendAll(data: string) returns (ok: bool)
      modifies this`wire, this`sends
      ensures ok <==> old(sends) > 0
      ensures sends == old(sends) - if ok then 1 else 0
      ensures wire == if ok then old(wire) + data else old(wire)
    {
      ok := sends > 0;
      if ok {
        wire, sends := wire + data, sends - 1;
      }
    }

    /** The counting pass. */
    method CountLength(form: seq<Field>, uploads: seq<Upload>) returns (ok: bool, n: nat)
      ensures ok <==> forall u :: u in uploads ==> u.Upload?
      ensures ok ==> n == CountedForm(form) + CountedUploads(uploads)
    {
      n := 0;
      var i := 0;
      while i < |form|
        invariant 0 <= i <= |form| && n + CountedForm(form[i..]) == CountedForm(form)
      {
        if !(form[i].key.None? || form[i].value.None?) {
          n := n + (|RAW_DATA_FMT| - RAW_DATA_FMT_LEN) + BOUNDARY_SIZE + |form[i].key.value|
            + |form[i].value.value| + 2;
        }
        assert form[i..][0] == form[i] && form[i..][1..] == form[i + 1..];
        i := i + 1;
      }
      i := 0;
      while i < |uploads|
        invariant 0 <= i <= |uploads| && forall j :: 0 <= j < i ==> uploads[j].Upload?
        invariant n + CountedUploads(uploads[i..]) == CountedForm(form) + CountedUploads(uploads)
      {
        var u := uploads[i];
        assert u in uploads;
        if u.NotArray? {
          return false, 0;
        }
        if u.name.Some? && u.filename.Some? && u.size.Some? && u.mime.Some? {
          n := n + (|FILE_DATA_FMT| - FILE_DATA_FMT_LEN) + BOUNDARY_SIZE + |u.name.value| + |u.filename.value|
            + |u.mime.value| + u.size.value + 2;
        }
        assert uploads[i..][0] == uploads[i] && uploads[i..][1..] == uploads[i + 1..];
        i := i + 1;
      }
      ok := true;
    }

    method EmitField(boundary: string, f: Field)
      modifies this`buffer
      ensures buffer == old(buffer) + SentField(boundary, f)
    {
      if !(f.key.None? || f.value.None?) {
        ghost var was, header := buffer, RawHeader(boundary, f.key.value);
        buffer := buffer + RawHeader(boundary, f.key.value);
        buffer := buffer + f.value.value;
        buffer := buffer + CRLF;
        Assoc(was, header, f.value.value);
        Assoc(was, header + f.value.value, CRLF);
      }
    }

    /** The form's part of the sending pass goes to the write buffer. */
    method EmitForm(boundary: string, form: seq<Field>)
      modifies this`buffer
      ensures buffer == old(buffer) + SentForm(boundary, form)
    {
      var i := 0;
      while i < |form|
        invariant 0 <= i <= |form| && buffer == old(buffer) + SentForm(boundary, form[..i])
      {
        EmitField(boundary, form[i]);
        FlattenStep(old(buffer), (f: Field) => SentField(boundary, f), form, i);
        i := i + 1;
      }
      assert form[..|form|] == form;
    }

    /** The three sends of an upload from disk. */
    method SendThree(header: string, data: string, end: string) returns (ok: bool)
      modifies this`wire, this`sends
      ensures ok <==> old(sends) >= 3
      ensures ok ==> wire == old(wire) + (header + data + end) && sends == old(sends) - 3
    {
      Assoc(wire, header, data);
      Assoc(wire, header + data, end);
      ok := SendAll(header);
      if ok {
        ok := SendAll(data);
      }
      if ok {
        ok := SendAll(end);
      }
    }

    /** One upload of the sending pass. */
    method EmitUpload(boundary: string, disk: Disk, u: Upload) returns (ok: bool)
      modifies this
      ensures ok <==> Sendable(disk, u) && old(sends) >= SendsOf(u)
      ensures ok ==> wire == old(wire) + SentUpload(boundary, disk, u) && sends == old(sends) - SendsOf(u)
    {
      if u.NotArray? {
        return false;
      }
      if u.name.None? || u.filename.None? || (u.content.None? && (u.path.None? || u.offset.None?))
         || u.size.None? || u.mime.None? {
        return true;
      }
      var header := FileHeader(boundary, u.name.value, u.filename.value, u.mime.value);
      if u.content.Some? {
        buffer := header + u.content.value + CRLF;
        ok := SendAll(buffer);
      } else {
        if u.path.value !in disk || u.offset.value + u.size.value > |disk[u.path.value]| {
          return false;
        }
        ok := SendThree(header, disk[u.path.value][u.offset.value..u.offset.value + u.size.value], CRLF);
      }
    }

    /** Both passes of `send_request`; `head` is everything before the body. */
    method SendMultipart(head: string, boundary: string, disk: Disk, form: seq<Field>, uploads: seq<Upload>)
      returns (ok: bool, announced: nat)
      modifies this
      ensures ok <==> AllSendable(disk, uploads) && old(sends) >= SendsOfAll(uploads) + 2
      ensures ok ==> announced == Announced(form, uploads)
      ensures ok ==> wire == old(wire) + head + Sent(boundary, disk, form, uploads)
      ensures ok && Boundary(boundary) ==>
                wire == old(wire) + head + (SentForm(boundary, form) + SentUploads(boundary, disk, uploads)
                                            + (DASHES + boundary + DASHES + CRLF))
      ensures ok && Boundary(boundary) && (forall u :: u in uploads ==> Genuine(disk, u)) ==>
                (|wire| == |old(wire)| + |head| + announced <==>
                 (forall f :: f in form ==> FieldFits(f)) && (forall u :: u in uploads ==> UploadFits(u)))
    {
      var n;
      ok, n := CountLength(form, uploads);
      if !ok {
        return false, 0;
      }
      assert forall u :: u in uploads ==> u.Upload?;
      announced := n + BOUNDARY_SIZE + 6;
      buffer := head;
      EmitForm(boundary, form);
      ok := SendAll(buffer);
      if !ok {
        return;
      }
      ok := EmitUploads(boundary, disk, uploads);
      if ok {
        ok := SendAll(Closing(boundary));
        if Boundary(boundary) {
          PrintedWhole(boundary);
        }
        BodyInOrder(old(wire), head, SentForm(boundary, form), SentUploads(boundary, disk, uploads), Closing(boundary));
        if Boundary(boundary) && forall u :: u in uploads ==> Genuine(disk, u) {
          LengthAgrees(boundary, disk, form, uploads);
        }
      }
    }

    /** The next upload, behind those before it. */
    method EmitNext(boundary: string, disk: Disk, uploads: seq<Upload>, i: nat, ghost base: string) returns (ok: bool)
      requires i < |uploads| && wire == base + SentUploads(boundary, disk, uploads[..i])
      modifies this
      ensures ok <==> Sendable(disk, uploads[i]) && old(sends) >= SendsOf(uploads[i])
      ensures ok ==> wire == base + SentUploads(boundary, disk, uploads[..i + 1])
      ensures ok ==> sends == old(sends) - SendsOf(uploads[i])
    {
      ok := EmitUpload(boundary, disk, uploads[i]);
      FlattenStep(base, (u: Upload) => SentUpload(boundary, disk, u), uploads, i);
    }

    /** The uploads' part of the sending pass. */
    method EmitUploads(boundary: string, disk: Disk, uploads: seq<Upload>) returns (ok: bool)
      modifies this
      ensures ok <==> AllSendable(disk, uploads) && old(sends) >= SendsOfAll(uploads)
      ensures ok ==> wire == old(wire) + SentUploads(boundary, disk, uploads)
      ensures ok ==> sends == old(sends) - SendsOfAll(uploads)
    {
      ok := true;
      var i := 0;
      while i < |uploads|
        invariant 0 <= i <= |uploads| && ok && wire == old(wire) + SentUploads(boundary, disk, uploads[..i])
        invariant sends == old(sends) - SendsOfAll(uploads[..i])
        invariant AllSendable(disk, uploads[..i])
      {
        SendsGrow(uploads, i);
        ok := EmitNext(boundary, disk, uploads, i, old(wire));
        if !ok {
          assert uploads[i] in uploads;
          return;
        }
        assert uploads[..i + 1] == uploads[..i] + [uploads[i]];
        i := i + 1;
      }
      assert uploads[..|uploads|] == uploads;
    }
  }
}
