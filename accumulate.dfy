/**
 * What the `field` and `file` handlers of index.js accumulate, stated as
 * functions over the sequence of parser events seen so far.
 *
 * A field value is a single string or a flat list of strings (a
 * JavaScript string or array). The merge rule stores the first value of a
 * name as a scalar, turns it into a two-element list on the second
 * occurrence and appends from then on.
 */
module Accumulate {

  datatype Value = Scalar(text: string) | Multi(texts: seq<string>)

  /** The file object the parsing engine hands to a `file` event. */
  datatype FileDescriptor = FileDescriptor(path: string, name: string, mimeType: string)

  /** The normalised record stored in the files list (`type` is `mimeType` here). */
  datatype FileRecord = FileRecord(partName: string, path: string, name: string, mimeType: string)

  /** The error an `err` event carries (only its message is modelled). */
  datatype Error = Error(message: string)

  /** An event emitted by the parsing engine. `End` and `Err` are terminal. */
  datatype Event =
    | Field(key: string, value: string)
    | File(partName: string, file: FileDescriptor)
    | End
    | Err(error: Error)
  {
    predicate IsTerminal() { End? || Err? }
  }

  /** The values a field entry stands for, in arrival order. */
  function Flatten(v: Value): seq<string> {
    match v
    case Scalar(t) => [t]
    case Multi(ts) => ts
  }

  /** The values stored so far under `k` (none when `k` is absent). */
  function ValuesAt(fields: map<string, Value>, k: string): seq<string> {
    if k in fields then Flatten(fields[k]) else []
  }

  /** Every list entry holds at least two values: a single value is always a scalar. */
  ghost predicate WellFormed(fields: map<string, Value>) {
    forall k :: k in fields && fields[k].Multi? ==> |fields[k].texts| >= 2
  }

  /** The merge rule of the `field` handler. */
  function AddField(fields: map<string, Value>, k: string, v: string): (r: map<string, Value>)
    ensures r.Keys == fields.Keys + {k}
    ensures forall j :: j in fields && j != k ==> r[j] == fields[j]
    ensures k !in fields ==> r[k] == Scalar(v)
    ensures ValuesAt(r, k) == ValuesAt(fields, k) + [v]
    ensures WellFormed(fields) ==> WellFormed(r)
  {
    if k !in fields then fields[k := Scalar(v)]
    else match fields[k]
      case Scalar(x) => fields[k := Multi([x, v])]
      case Multi(xs) => fields[k := Multi(xs + [v])]
  }

  /** The record the `file` handler stores for one file event. */
  function Normalise(partName: string, file: FileDescriptor): (r: FileRecord)
    ensures r.partName == partName
    ensures r.path == file.path && r.name == file.name && r.mimeType == file.mimeType
  {
    FileRecord(partName, file.path, file.name, file.mimeType)
  }

  /** The fields dictionary after the events `evs`, in order. */
  function FieldsOf(evs: seq<Event>): map<string, Value> {
    if evs == [] then map[]
    else
      var prev := FieldsOf(evs[..|evs| - 1]);
      match evs[|evs| - 1]
      case Field(k, v) => AddField(prev, k, v)
      case _ => prev
  }

  /** The files list after the events `evs`, in order. */
  function FilesOf(evs: seq<Event>): seq<FileRecord> {
    if evs == [] then []
    else
      var prev := FilesOf(evs[..|evs| - 1]);
      match evs[|evs| - 1]
      case File(p, f) => prev + [Normalise(p, f)]
      case _ => prev
  }

  /** The values of the `field` events for `k`, in arrival order. */
  function ValuesFor(evs: seq<Event>, k: string): seq<string> {
    if evs == [] then []
    else
      var last := evs[|evs| - 1];
      ValuesFor(evs[..|evs| - 1], k) + if last.Field? && last.key == k then [last.value] else []
  }

  /**
   * The field accumulation law for one name `k`: its entry flattens to the
   * values of exactly the events that carried `k`, in arrival order (so it
   * is present exactly when some event carried it), and it is a scalar
   * exactly when there was one such event, a list of two or more otherwise.
   */
  lemma {:induction false} FieldsOfAt(evs: seq<Event>, k: string)
    ensures ValuesAt(FieldsOf(evs), k) == ValuesFor(evs, k)
    ensures k in FieldsOf(evs) ==> (FieldsOf(evs)[k].Scalar? <==> |ValuesFor(evs, k)| == 1)
    ensures k in FieldsOf(evs) && FieldsOf(evs)[k].Multi? ==> |ValuesFor(evs, k)| >= 2
  {
    if evs != [] {
      var init := evs[..|evs| - 1];
      FieldsOfAt(init, k);
      var prev := FieldsOf(init);
      match evs[|evs| - 1]
      case Field(key, v) =>
        var r := AddField(prev, key, v);
        if key == k {
          assert ValuesAt(r, k) == ValuesAt(prev, k) + [v];
        } else {
          assert k in r ==> r[k] == prev[k];
        }
      case _ =>
    }
  }

  /**
   * The same law for every name at once; in particular every list entry
   * holds at least two values.
   */
  lemma {:induction false} FieldsOfSpec(evs: seq<Event>)
    ensures WellFormed(FieldsOf(evs))
    ensures forall k :: ValuesAt(FieldsOf(evs), k) == ValuesFor(evs, k)
    ensures forall k :: k in FieldsOf(evs) <==> ValuesFor(evs, k) != []
  {
    forall k ensures ValuesAt(FieldsOf(evs), k) == ValuesFor(evs, k) {
      FieldsOfAt(evs, k);
    }
    forall k | k in FieldsOf(evs) && FieldsOf(evs)[k].Multi?
      ensures |FieldsOf(evs)[k].texts| >= 2
    {
      FieldsOfAt(evs, k);
    }
  }

  /** Field values of later events extend, and never rewrite, those of earlier ones. */
  lemma {:induction false} ValuesForAppend(a: seq<Event>, b: seq<Event>, k: string)
    ensures ValuesFor(a + b, k) == ValuesFor(a, k) + ValuesFor(b, k)
    decreases |b|
  {
    if b == [] {
      assert a + b == a;
    } else {
      var init := b[..|b| - 1];
      assert (a + b)[..|a + b| - 1] == a + init;
      ValuesForAppend(a, init, k);
    }
  }

  /** The files list of a concatenated stream is the concatenation of the lists: no reordering. */
  lemma {:induction false} FilesOfAppend(a: seq<Event>, b: seq<Event>)
    ensures FilesOf(a + b) == FilesOf(a) + FilesOf(b)
    decreases |b|
  {
    if b == [] {
      assert a + b == a;
    } else {
      var init := b[..|b| - 1];
      assert (a + b)[..|a + b| - 1] == a + init;
      FilesOfAppend(a, init);
    }
  }

  /**
   * Every file event yields its normalised record and every record comes
   * from a file event: nothing is filtered out and nothing invented.
   */
  lemma {:induction false} FilesOfRecords(evs: seq<Event>)
    ensures forall i :: 0 <= i < |evs| && evs[i].File? ==> Normalise(evs[i].partName, evs[i].file) in FilesOf(evs)
    ensures forall r :: r in FilesOf(evs) ==>
      exists i :: 0 <= i < |evs| && evs[i].File? && r == Normalise(evs[i].partName, evs[i].file)
  {
    if evs != [] {
      var init := evs[..|evs| - 1];
      FilesOfRecords(init);
      assert forall i :: 0 <= i < |init| ==> init[i] == evs[i];
    }
  }

  /** The number of records is the number of file events. */
  lemma {:induction false} FilesOfCount(evs: seq<Event>)
    ensures |FilesOf(evs)| == |FileEvents(evs)|
    ensures forall j :: 0 <= j < |FilesOf(evs)| ==>
      FilesOf(evs)[j] == Normalise(FileEvents(evs)[j].partName, FileEvents(evs)[j].file)
  {
    if evs != [] {
      FilesOfCount(evs[..|evs| - 1]);
    }
  }

  /** The file events of `evs`, in order. */
  function FileEvents(evs: seq<Event>): (r: seq<Event>)
    ensures forall e :: e in r ==> e.File?
  {
    if evs == [] then []
    else FileEvents(evs[..|evs| - 1]) + if evs[|evs| - 1].File? then [evs[|evs| - 1]] else []
  }

  /** One field, a repeated field and one file part, in the order they arrive. */
  lemma Scenario()
    ensures
      var evs := [Field("name", "Alice"), Field("tags", "red"),
                  File("file1", FileDescriptor("/tmp/u1", "photo.jpg", "image/jpeg")),
                  Field("tags", "blue"), End];
      && FieldsOf(evs) == map["name" := Scalar("Alice"), "tags" := Multi(["red", "blue"])]
      && FilesOf(evs) == [FileRecord("file1", "/tmp/u1", "photo.jpg", "image/jpeg")]
  {
    var photo := File("file1", FileDescriptor("/tmp/u1", "photo.jpg", "image/jpeg"));
    var e1 := [Field("name", "Alice")];
    var e2 := e1 + [Field("tags", "red")];
    var e3 := e2 + [photo];
    var e4 := e3 + [Field("tags", "blue")];
    var e5 := e4 + [End];
    assert e1[..0] == [] && e2[..1] == e1 && e3[..2] == e2 && e4[..3] == e3 && e5[..4] == e4;
    assert FieldsOf(e1) == map["name" := Scalar("Alice")];
    assert FieldsOf(e2) == map["name" := Scalar("Alice"), "tags" := Scalar("red")];
    assert FieldsOf(e3) == FieldsOf(e2);
    assert FieldsOf(e4) == map["name" := Scalar("Alice"), "tags" := Multi(["red", "blue"])];
    assert FilesOf(e2) == [];
    assert FilesOf(e5) == FilesOf(e3) == [FileRecord("file1", "/tmp/u1", "photo.jpg", "image/jpeg")];
    assert e5 == [Field("name", "Alice"), Field("tags", "red"), photo, Field("tags", "blue"), End];
  }

  /** A field submitted three times is one flat list, never a nested one. */
  lemma ThreeValuesFlat()
    ensures FieldsOf([Field("a", "x"), Field("a", "y"), Field("a", "z")])["a"] == Multi(["x", "y", "z"])
  {
    var e1 := [Field("a", "x")];
    var e2 := e1 + [Field("a", "y")];
    var e3 := e2 + [Field("a", "z")];
    assert e1[..0] == [] && e2[..1] == e1 && e3[..2] == e2;
    assert FieldsOf(e1)["a"] == Scalar("x");
    assert FieldsOf(e2)["a"] == Multi(["x", "y"]);
    assert e3 == [Field("a", "x"), Field("a", "y"), Field("a", "z")];
  }
}
