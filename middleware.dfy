/**
 * The middleware exported by index.js: a request object, the per-request
 * parsing session whose event handlers accumulate fields and files in
 * place, and the handler that classifies a request and drives a session
 * over the events of the parsing engine.
 *
 * The parsing engine is not modelled: the sequence of events it emits is
 * a parameter of `Handle`, and the continuation `next` is modelled by the
 * calls made to it, in order (`Next` for `next()`, `NextWithError(e)`
 * for `next(e)`).
 */
module ConnectForm {
  import opened Wrappers
  import opened Classify
  import opened Accumulate
  import opened Options

  /** One call of the continuation `next`. */
  datatype NextCall = Next | NextWithError(error: Error)

  /** The events of one parse: a terminal event (`end` or `err`) can only come last. */
  predicate TerminalLast(events: seq<Event>) {
    forall i :: 0 <= i < |events| - 1 ==> !events[i].IsTerminal()
  }

  /** The properties of the incoming request that this middleware reads or sets. */
  class Request {
    const headers: map<string, string>
    const requestMethod: string
    var body: Option<map<string, Value>>
    var uploadedFiles: Option<seq<FileRecord>>
    var form: FormParser?

    constructor (headers: map<string, string>, requestMethod: string, body: Option<map<string, Value>>)
      ensures this.headers == headers && this.requestMethod == requestMethod && this.body == body
      ensures uploadedFiles == None && form == null
    {
      this.headers := headers;
      this.requestMethod := requestMethod;
      this.body := body;
      uploadedFiles := None;
      form := null;
    }
  }

  /**
   * The state the event handlers of one request share: the `fields`
   * dictionary and the `files` list. The ghost `seen` is the sequence of
   * events handled so far, and `Valid` ties the two accumulators to it.
   */
  class Session {
    const req: Request
    var fields: map<string, Value>
    var files: seq<FileRecord>
    ghost var seen: seq<Event>

    ghost predicate Valid()
      reads this
    {
      && (forall i :: 0 <= i < |seen| ==> !seen[i].IsTerminal())
      && fields == FieldsOf(seen)
      && files == FilesOf(seen)
    }

    constructor (req: Request)
      ensures Valid() && this.req == req
      ensures seen == [] && fields == map[] && files == []
    {
      this.req := req;
      fields := map[];
      files := [];
      seen := [];
    }

    /** The `field` handler: the merge rule applied in place; the files list is untouched. */
    method OnField(k: string, v: string)
      requires Valid()
      modifies this
      ensures Valid() && seen == old(seen) + [Field(k, v)]
      ensures fields == AddField(old(fields), k, v)
      ensures files == old(files)
    {
      if k !in fields {
        fields := fields[k := Scalar(v)];
      } else if !fields[k].Multi? {
        fields := fields[k := Multi([fields[k].text, v])];
      } else {
        fields := fields[k := Multi(fields[k].texts + [v])];
      }
      seen := seen + [Field(k, v)];
      assert seen[..|seen| - 1] == old(seen);
    }

    /** The `file` handler: one normalised record appended; earlier records and the fields are untouched. */
    method OnFile(partName: string, file: FileDescriptor)
      requires Valid()
      modifies this
      ensures Valid() && seen == old(seen) + [File(partName, file)]
      ensures files == old(files) + [Normalise(partName, file)]
      ensures fields == old(fields)
    {
      files := files + [FileRecord(partName, file.path, file.name, file.mimeType)];
      seen := seen + [File(partName, file)];
      assert seen[..|seen| - 1] == old(seen);
    }

    /** The reactions to a run of non-terminal events, one handler call per event, in order. */
    method Feed(evs: seq<Event>)
      requires Valid()
      requires forall i :: 0 <= i < |evs| ==> !evs[i].IsTerminal()
      modifies this
      ensures Valid() && seen == old(seen) + evs
    {
      for i := 0 to |evs|
        invariant Valid() && seen == old(seen) + evs[..i]
      {
        match evs[i] {
          case Field(k, v) => OnField(k, v);
          case File(p, f) => OnFile(p, f);
        }
        assert evs[..i + 1] == evs[..i] + [evs[i]];
      }
      assert evs[..|evs|] == evs;
    }

    /** The `end` handler: publish both accumulators on the request, then `next()`. */
    method OnEnd() returns (call: NextCall)
      requires Valid()
      modifies req`body, req`uploadedFiles
      ensures req.body == Some(FieldsOf(seen)) && req.uploadedFiles == Some(FilesOf(seen))
      ensures call == Next
    {
      req.body := Some(fields);
      req.uploadedFiles := Some(files);
      call := Next;
    }

    /** The `err` handler: `next(err)`; nothing is published. */
    method OnErr(err: Error) returns (call: NextCall)
      ensures call == NextWithError(err)
    {
      call := NextWithError(err);
    }
  }

  /** The function `require('connect-form')(options)` returns. */
  class Middleware {
    const options: map<string, OptionValue>

    /** A missing options object stands for `{}`. */
    constructor (options: Option<map<string, OptionValue>>)
      ensures this.options == if options.Some? then options.value else map[]
    {
      this.options := if options.Some? then options.value else map[];
    }

    /**
     * One request through the middleware. `engineDefaults` are the settings
     * a fresh parsing engine starts with and `events` what it emits while
     * parsing the request.
     *
     * A request that is not a form submission is passed on with `next()`
     * and left as it was. Otherwise the request gets a fresh engine
     * configured with the defaults overwritten by the options; on `end`
     * its `body` and `uploaded_files` are the fields and files accumulated
     * from all events and `next()` is called once; on `err` only `next(err)`
     * is called; while no terminal event has come, nothing is published.
     */
    method Handle(req: Request, engineDefaults: map<string, OptionValue>, events: seq<Event>)
      returns (calls: seq<NextCall>)
      requires TerminalLast(events)
      modifies req
      ensures !IsFormRequest(req.headers, req.requestMethod, old(req.body).Some?) ==>
        calls == [Next] && unchanged(req)
      ensures IsFormRequest(req.headers, req.requestMethod, old(req.body).Some?) ==>
        && req.form != null && fresh(req.form)
        && req.form.settings == engineDefaults + options
        && (if events != [] && events[|events| - 1] == End then
              && req.body == Some(FieldsOf(events))
              && req.uploadedFiles == Some(FilesOf(events))
              && calls == [Next]
            else
              && req.body == old(req.body)
              && req.uploadedFiles == old(req.uploadedFiles)
              && calls == if events != [] && events[|events| - 1].Err?
                          then [NextWithError(events[|events| - 1].error)] else [])
    {
      if IsFormRequest(req.headers, req.requestMethod, req.body.Some?) {
        var form := new FormParser(engineDefaults);
        req.form := form;
        var session := new Session(req);
        form := Merge(form, options);
        assert form.settings == engineDefaults + options;
        var n := if events != [] && events[|events| - 1].IsTerminal() then |events| - 1 else |events|;
        session.Feed(events[..n]);
        calls := [];
        if n < |events| {
          assert session.seen == events[..|events| - 1];
          assert FieldsOf(events) == FieldsOf(session.seen) && FilesOf(events) == FilesOf(session.seen);
          match events[n]
          case End =>
            var call := session.OnEnd();
            calls := [call];
          case Err(e) =>
            var call := session.OnErr(e);
            calls := [call];
        } else {
          assert session.seen == events;
        }
      } else {
        calls := [Next];
      }
    }
  }

  /** A request that is not a form submission can go through twice: two `next()` calls, nothing else. */
  method PassThroughTwice(m: Middleware, req: Request, engineDefaults: map<string, OptionValue>, events: seq<Event>)
    returns (calls: seq<NextCall>)
    requires TerminalLast(events)
    requires !IsFormRequest(req.headers, req.requestMethod, req.body.Some?)
    modifies req
    ensures calls == [Next, Next] && unchanged(req)
  {
    var first := m.Handle(req, engineDefaults, events);
    var second := m.Handle(req, engineDefaults, events);
    calls := first + second;
  }

  /**
   * A POST of the fields `name=Alice`, `tags=red`, `tags=blue` and one
   * file part through a middleware built without options.
   */
  method SubmitScenario() returns (body: Option<map<string, Value>>, uploaded: Option<seq<FileRecord>>, calls: seq<NextCall>)
    ensures body == Some(map["name" := Scalar("Alice"), "tags" := Multi(["red", "blue"])])
    ensures uploaded == Some([FileRecord("file1", "/tmp/u1", "photo.jpg", "image/jpeg")])
    ensures calls == [Next]
  {
    var m := new Middleware(None);
    var req := new Request(map[ContentTypeHeader := "multipart/form-data; boundary=X"], "POST", None);
    var events := [Field("name", "Alice"), Field("tags", "red"),
                   File("file1", FileDescriptor("/tmp/u1", "photo.jpg", "image/jpeg")),
                   Field("tags", "blue"), End];
    BoundaryParameterAccepted();
    Accumulate.Scenario();
    calls := m.Handle(req, map[], events);
    body := req.body;
    uploaded := req.uploadedFiles;
  }
}
