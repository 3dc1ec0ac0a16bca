/** The lecture serializer: which request fields it takes, the audio file
    check, and the owner it gives a new lecture. */
module Serializers {
  import opened Text
  import opened Json

  const AllowedExtensions: seq<string> := [".mp3", ".wav", ".m4a"]

  /** `Meta.read_only_fields` */
  const ReadOnlyFields: seq<string> := ["user", "transcript", "summary", "pdf_file", "created_at"]

  /** The model's fields (`fields = '__all__'`). */
  const ModelFields: set<string> :=
    {"id", "user", "title", "audio_file", "transcript", "flashcards", "summary", "status", "pdf_file", "created_at"}

  /** The fields a request may set: all of the model's, less the read-only
      ones and the automatic primary key. */
  function WritableFields(): (r: set<string>)
    ensures r == {"title", "audio_file", "flashcards", "status"}
  {
    set f | f in ModelFields && f !in ReadOnlyFields && f != "id"
  }

  function UnsupportedType(ext: string): string {
    "Unsupported file type: " + ext + ". Only MP3, WAV, or M4A files are allowed."
  }

  datatype Checked<T> = Accepted(value: T) | Rejected(message: string)

  /** The extension `validate_audio_file` tests: that of `os.path.splitext`,
      lower-cased. */
  function AudioExtension(name: string): string {
    Lower(SplitExt(name).1)
  }

  /** `validate_audio_file(value)`, for an uploaded file called `name`. */
  function ValidateAudioFile<F>(file: F, name: string): (r: Checked<F>)
    ensures r.Accepted? <==> AudioExtension(name) in AllowedExtensions
    ensures r.Accepted? ==> r.value == file
    ensures r.Rejected? ==> r.message == UnsupportedType(AudioExtension(name))
  {
    var ext := AudioExtension(name);
    if ext in AllowedExtensions then Accepted(file) else Rejected(UnsupportedType(ext))
  }

  /** Upper or lower case makes no difference to the check. */
  lemma CaseInsensitive(name: string)
    ensures AudioExtension(Lower(name)) == AudioExtension(name)
    ensures ValidateAudioFile(name, Lower(name)).Accepted? == ValidateAudioFile(name, name).Accepted?
  {
    SplitExtLower(name);
    LowerProperties(SplitExt(name).1);
  }

  lemma UpperCaseMp3Accepted()
    ensures ValidateAudioFile("A.MP3", "A.MP3") == Accepted("A.MP3")
  {
    assert "A"[0] != '.' && "A" + "." + "MP3" == "A.MP3";
    LastExtensionCounts("A", "MP3");
    var low := Lower(".MP3");
    assert low[0] == '.' && low[1] == 'm' && low[2] == 'p' && low[3] == '3';
    assert low == ".mp3";
  }

  /** Only the last extension counts: a base name with some non-dot character,
      given one more extension, is judged by that extension alone. */
  lemma LastExtensionCounts(name: string, e: string)
    requires forall k | 0 <= k < |name| :: name[k] != '/'
    requires exists k | 0 <= k < |name| :: name[k] != '.'
    requires forall k | 0 <= k < |e| :: e[k] != '.' && e[k] != '/'
    ensures AudioExtension(name + "." + e) == Lower("." + e)
  {
    SplitExtAppend(name, e);
  }

  lemma DoubleExtensions()
    ensures ValidateAudioFile("x.mp3.exe", "x.mp3.exe").Rejected?
    ensures ValidateAudioFile("x.tar.wav", "x.tar.wav").Accepted?
  {
    assert "x.mp3"[0] != '.';
    LastExtensionCounts("x.mp3", "exe");
    assert "x.mp3" + "." + "exe" == "x.mp3.exe";
    assert Lower(".exe") == ".exe";
    assert "x.tar"[0] != '.';
    LastExtensionCounts("x.tar", "wav");
    assert "x.tar" + "." + "wav" == "x.tar.wav";
    assert Lower(".wav") == ".wav";
  }

  /** A name without a dot has no extension and is rejected, with the empty
      extension in the message. */
  lemma NoExtensionRejected(name: string)
    requires forall k | 0 <= k < |name| :: name[k] != '.'
    ensures AudioExtension(name) == ""
    ensures ValidateAudioFile(name, name) == Rejected(UnsupportedType(""))
  {
    LastIndexAbsent(name, '.');
  }

  /** Leading dots do not start an extension: ".mp3" (or "...mp3") is a
      name without one, and is rejected. */
  lemma DotfileRejected(dots: string, e: string)
    requires dots != [] && forall k | 0 <= k < |dots| :: dots[k] == '.'
    requires forall k | 0 <= k < |e| :: e[k] != '.' && e[k] != '/'
    ensures AudioExtension(dots + e) == ""
    ensures ValidateAudioFile(dots + e, dots + e) == Rejected(UnsupportedType(""))
  {
    var p := dots + e;
    LastIndexAbsent(e, '.');
    LastIndexAppend(dots, e, '.');
    assert LastIndex(dots, '.') == |dots| - 1;
    assert forall k | 0 <= k < |p| :: p[k] != '/';
    LastIndexAbsent(p, '/');
    assert !HasNonDot(p, -1, |dots| - 1);
  }

  // ---------------------------------------------------------------------------
  // Which request fields reach the new row, and its owner
  // ---------------------------------------------------------------------------

  /** The validated data the serializer keeps from a request: the writable
      fields the request filled in, as sent. */
  function Validated(request: map<string, Value>): (r: map<string, Value>)
    ensures r.Keys == request.Keys * WritableFields()
    ensures forall f | f in r :: r[f] == request[f]
  {
    map f | f in request && f in WritableFields() :: request[f]
  }

  /** The data `create` hands on: the requesting user becomes the owner
      whatever the data held; nothing else is changed. */
  function WithOwner(validated: map<string, Value>, requestUser: nat): (r: map<string, Value>)
    ensures "user" in r && r["user"] == Num(requestUser)
    ensures r.Keys == validated.Keys + {"user"}
    ensures forall f | f in validated && f != "user" :: r[f] == validated[f]
  {
    validated["user" := Num(requestUser)]
  }

  /** The `validated_data` dict, which `create` changes in place. */
  class ValidatedData {
    var fields: map<string, Value>

    constructor (request: map<string, Value>)
      ensures fields == Validated(request)
    {
      fields := Validated(request);
    }
  }

  class AudioLectureSerializer {
    /** `self.context['request'].user` */
    const requestUser: nat

    constructor (requestUser: nat)
      ensures this.requestUser == requestUser
    {
      this.requestUser := requestUser;
    }

    /** `create(validated_data)`: stores the owner into the dict, then hands
        the dict on to the model's `create`; the result is what it hands on. */
    method Create(data: ValidatedData) returns (saved: map<string, Value>)
      modifies data
      ensures data.fields == WithOwner(old(data.fields), requestUser)
      ensures saved == data.fields
    {
      data.fields := data.fields["user" := Num(requestUser)];
      saved := data.fields;
    }
  }

  /** A client cannot set any read-only field, and the owner of what it
      creates is the requesting user even if the request named another. */
  lemma ReadOnlyFieldsIgnored(request: map<string, Value>, requestUser: nat)
    ensures forall f | f in ReadOnlyFields :: f !in Validated(request)
    ensures WithOwner(Validated(request), requestUser)["user"] == Num(requestUser)
  {
  }

  /** `status` and `flashcards` are not read-only: a request sets them as it
      likes, so a client can create a lecture already marked "In progress". */
  lemma StatusAndFlashcardsWritable(request: map<string, Value>, requestUser: nat)
    ensures "status" in request ==> WithOwner(Validated(request), requestUser)["status"] == request["status"]
    ensures "flashcards" in request ==> WithOwner(Validated(request), requestUser)["flashcards"] == request["flashcards"]
  {
  }
}
