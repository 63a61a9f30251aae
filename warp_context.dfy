// warp_context_handler.py: Warp output blocks and their dict form, the
// extractors that read a Warp request's context, the formatters that build
// block lists, the marker scan that finds actions in a response and the
// code-fence splitter. Running commands, writing files, reading media and
// asking git are effects outside this model; where a result depends on one,
// the effect's outcome is a parameter.
module WarpContext {
  import opened Wrappers
  import Text
  import Json

  // ---- WarpBlock ----

  datatype BlockType = TEXT | CODE | COMMAND | FILE | MEDIA | TABLE | PARAGRAPH | STRUCTURED | OUTPUT | ERROR

  /** The enum's value. */
  function TypeValue(t: BlockType): string
  {
    match t
    case TEXT => "text"
    case CODE => "code"
    case COMMAND => "command"
    case FILE => "file"
    case MEDIA => "media"
    case TABLE => "table"
    case PARAGRAPH => "paragraph"
    case STRUCTURED => "structured"
    case OUTPUT => "output"
    case ERROR => "error"
  }

  /** The enum member with a given value, as `BlockType(value)` finds it. */
  function TypeOfValue(value: string): (r: Option<BlockType>)
    ensures r.Some? ==> TypeValue(r.value) == value
  {
    if value == "text" then Some(TEXT)
    else if value == "code" then Some(CODE)
    else if value == "command" then Some(COMMAND)
    else if value == "file" then Some(FILE)
    else if value == "media" then Some(MEDIA)
    else if value == "table" then Some(TABLE)
    else if value == "paragraph" then Some(PARAGRAPH)
    else if value == "structured" then Some(STRUCTURED)
    else if value == "output" then Some(OUTPUT)
    else if value == "error" then Some(ERROR)
    else None
  }

  lemma TypeValueRoundTrip(t: BlockType)
    ensures TypeOfValue(TypeValue(t)) == Some(t)
  {
  }

  datatype WarpBlock = WarpBlock(
    kind: BlockType,
    text: Option<string>,
    meta: Option<Json.Fields>,
    actions: Option<seq<Json.Value>>,
    url: Option<string>,
    mediaType: Option<string>,
    filename: Option<string>,
    filepath: Option<string>,
    content: Option<string>)

  /** A block of the given type with every other field None. */
  function Bare(kind: BlockType): WarpBlock
  {
    WarpBlock(kind, None, None, None, None, None, None, None, None)
  }

  function StrOpt(o: Option<string>): Option<Json.Value>
  {
    match o case Some(s) => Some(Json.Str(s)) case None => None
  }

  /** The dataclass fields after `type`, in declaration order, as `asdict` lists them. */
  function Attributes(b: WarpBlock): seq<(string, Option<Json.Value>)>
  {
    [("text", StrOpt(b.text)),
     ("meta", match b.meta case Some(m) => Some(Json.Obj(m)) case None => None),
     ("actions", match b.actions case Some(a) => Some(Json.Arr(a)) case None => None),
     ("url", StrOpt(b.url)),
     ("media_type", StrOpt(b.mediaType)),
     ("filename", StrOpt(b.filename)),
     ("filepath", StrOpt(b.filepath)),
     ("content", StrOpt(b.content))]
  }

  /** The attributes that are not None. */
  function Present(attrs: seq<(string, Option<Json.Value>)>): (r: Json.Fields)
    ensures |r| <= |attrs|
  {
    if |attrs| == 0 then []
    else (match attrs[0].1 case Some(v) => [(attrs[0].0, v)] case None => []) + Present(attrs[1..])
  }

  /** `to_dict`: the type's value under "type", then every other field that is not None. */
  function ToDict(b: WarpBlock): Json.Fields
  {
    [("type", Json.Str(TypeValue(b.kind)))] + Present(Attributes(b))
  }

  lemma {:induction false} PresentExactly(attrs: seq<(string, Option<Json.Value>)>, name: string, v: Json.Value)
    ensures (name, v) in Present(attrs) <==> (name, Some(v)) in attrs
  {
    if |attrs| > 0 {
      PresentExactly(attrs[1..], name, v);
      assert attrs == [attrs[0]] + attrs[1..];
    }
  }

  /**
   * `to_dict` keeps "type" first with the enum's value, and holds a field
   * exactly when that field is not None, with the field's value.
   */
  lemma ToDictFields(b: WarpBlock, name: string, v: Json.Value)
    ensures ToDict(b)[0] == ("type", Json.Str(TypeValue(b.kind)))
    ensures (name, v) in ToDict(b)[1..] <==> (name, Some(v)) in Attributes(b)
  {
    assert ToDict(b)[1..] == Present(Attributes(b));
    PresentExactly(Attributes(b), name, v);
  }

  /** The value under the next key when it is `key`, and the fields after it. */
  function Take(d: Json.Fields, key: string): (Option<Json.Value>, Json.Fields)
  {
    if |d| > 0 && d[0].0 == key then (Some(d[0].1), d[1..]) else (None, d)
  }

  /** `Take` for each name in turn. */
  function TakeAll(d: Json.Fields, names: seq<string>): (r: (seq<Option<Json.Value>>, Json.Fields))
    ensures |r.0| == |names|
  {
    if |names| == 0 then ([], d)
    else
      var (v, d1) := Take(d, names[0]);
      var (vs, rest) := TakeAll(d1, names[1..]);
      ([v] + vs, rest)
  }

  const AttributeNames := ["text", "meta", "actions", "url", "media_type", "filename", "filepath", "content"]

  function AsStr(v: Option<Json.Value>): Option<Option<string>>
  {
    match v
    case None => Some(None)
    case Some(Str(s)) => Some(Some(s))
    case Some(_) => None
  }

  /** A block from its type and the eight attribute values, when each has the field's type. */
  function Build(kind: BlockType, vs: seq<Option<Json.Value>>): Option<WarpBlock>
    requires |vs| == 8
  {
    var meta, actions := vs[1], vs[2];
    if (meta.Some? && !meta.value.Obj?) || (actions.Some? && !actions.value.Arr?) then None
    else
      match (AsStr(vs[0]), AsStr(vs[3]), AsStr(vs[4]), AsStr(vs[5]), AsStr(vs[6]), AsStr(vs[7]))
      case (Some(t), Some(u), Some(mt), Some(fn), Some(fp), Some(c)) =>
        Some(WarpBlock(kind, t,
                       match meta case Some(m) => Some(m.fields) case None => None,
                       match actions case Some(a) => Some(a.items) case None => None,
                       u, mt, fn, fp, c))
      case _ => None
  }

  /** Reads a dict written by `to_dict` back into a block, or None when it is not one. */
  function FromDict(d: Json.Fields): Option<WarpBlock>
  {
    if |d| == 0 || d[0].0 != "type" || !d[0].1.Str? then None
    else
      match TypeOfValue(d[0].1.s)
      case None => None
      case Some(kind) =>
        var (vs, rest) := TakeAll(d[1..], AttributeNames);
        if rest != [] then None else Build(kind, vs)
  }

  function Names(attrs: seq<(string, Option<Json.Value>)>): (r: seq<string>)
    ensures |r| == |attrs| && forall i :: 0 <= i < |attrs| ==> r[i] == attrs[i].0
  {
    seq(|attrs|, i requires 0 <= i < |attrs| => attrs[i].0)
  }

  function OptValues(attrs: seq<(string, Option<Json.Value>)>): (r: seq<Option<Json.Value>>)
    ensures |r| == |attrs| && forall i :: 0 <= i < |attrs| ==> r[i] == attrs[i].1
  {
    seq(|attrs|, i requires 0 <= i < |attrs| => attrs[i].1)
  }

  lemma {:induction false} PresentHead(attrs: seq<(string, Option<Json.Value>)>, name: string)
    requires forall k :: 0 <= k < |attrs| ==> attrs[k].0 != name
    ensures |Present(attrs)| > 0 ==> Present(attrs)[0].0 != name
  {
    if |attrs| > 0 && attrs[0].1.None? {
      PresentHead(attrs[1..], name);
    }
  }

  /** Taking the first name from the present attributes gives its value, and the rest of them. */
  lemma TakeHead(attrs: seq<(string, Option<Json.Value>)>)
    requires |attrs| > 0
    requires forall i, j :: 0 <= i < j < |attrs| ==> attrs[i].0 != attrs[j].0
    ensures Take(Present(attrs), attrs[0].0) == (attrs[0].1, Present(attrs[1..]))
  {
    var tail := attrs[1..];
    forall k | 0 <= k < |tail| ensures tail[k].0 != attrs[0].0 {
      assert tail[k] == attrs[k + 1];
    }
    PresentHead(tail, attrs[0].0);
    if attrs[0].1.Some? {
      assert Present(attrs) == [(attrs[0].0, attrs[0].1.value)] + Present(tail);
    } else {
      assert Present(attrs) == Present(tail);
    }
  }

  /** With distinct names, taking the names in order reads back every attribute and nothing more. */
  lemma {:induction false} TakeAllPresent(attrs: seq<(string, Option<Json.Value>)>)
    requires forall i, j :: 0 <= i < j < |attrs| ==> attrs[i].0 != attrs[j].0
    ensures TakeAll(Present(attrs), Names(attrs)) == (OptValues(attrs), [])
  {
    if |attrs| > 0 {
      var tail := attrs[1..];
      TakeHead(attrs);
      assert Names(attrs)[1..] == Names(tail);
      TakeAllPresent(tail);
      assert OptValues(attrs) == [attrs[0].1] + OptValues(tail);
    }
  }

  /** A block's dict reads back as the block itself. */
  lemma FromDictToDict(b: WarpBlock)
    ensures FromDict(ToDict(b)) == Some(b)
  {
    var attrs := Attributes(b);
    TypeValueRoundTrip(b.kind);
    assert ToDict(b)[1..] == Present(attrs);
    assert Names(attrs) == AttributeNames;
    TakeAllPresent(attrs);
    BuildAttributes(b);
  }

  lemma BuildAttributes(b: WarpBlock)
    ensures Build(b.kind, OptValues(Attributes(b))) == Some(b)
  {
    var vs := OptValues(Attributes(b));
    assert vs[0] == StrOpt(b.text) && vs[3] == StrOpt(b.url) && vs[4] == StrOpt(b.mediaType);
    assert vs[5] == StrOpt(b.filename) && vs[6] == StrOpt(b.filepath) && vs[7] == StrOpt(b.content);
  }

  // ---- WarpContextExtractor ----

  /**
   * What a loop over `xs` collects: the items each element gives, in order,
   * or the error of the first element that raises.
   */
  function Collect(xs: seq<Json.Value>, item: Json.Value -> Result<seq<Json.Value>, string>): (r: Result<seq<Json.Value>, string>)
  {
    if |xs| == 0 then Success([])
    else
      match item(xs[0])
      case Failure(e) => Failure(e)
      case Success(mine) =>
        match Collect(xs[1..], item)
        case Failure(e) => Failure(e)
        case Success(rest) => Success(mine + rest)
  }

  function Prefixed(out: seq<Json.Value>, r: Result<seq<Json.Value>, string>): Result<seq<Json.Value>, string>
  {
    match r
    case Failure(e) => Failure(e)
    case Success(rest) => Success(out + rest)
  }

  lemma CollectStart(xs: seq<Json.Value>, item: Json.Value -> Result<seq<Json.Value>, string>)
    ensures Collect(xs, item) == Prefixed([], Collect(xs[0..], item))
  {
    assert xs[0..] == xs;
    match Collect(xs, item)
    case Success(rest) => assert [] + rest == rest;
    case Failure(_) =>
  }

  /** One turn of a collecting loop: the element's error ends it, or its items are appended. */
  lemma CollectStep(xs: seq<Json.Value>, item: Json.Value -> Result<seq<Json.Value>, string>, i: nat, out: seq<Json.Value>)
    requires i < |xs|
    requires Collect(xs, item) == Prefixed(out, Collect(xs[i..], item))
    ensures item(xs[i]).Failure? ==> Collect(xs, item) == Failure(item(xs[i]).error)
    ensures item(xs[i]).Success? ==> Collect(xs, item) == Prefixed(out + item(xs[i]).value, Collect(xs[i + 1..], item))
  {
    assert xs[i..][1..] == xs[i + 1..];
    match item(xs[i])
    case Failure(_) =>
    case Success(mine) =>
      match Collect(xs[i + 1..], item)
      case Failure(_) =>
      case Success(rest) => assert out + (mine + rest) == out + mine + rest;
  }

  lemma CollectEnd(xs: seq<Json.Value>, item: Json.Value -> Result<seq<Json.Value>, string>, out: seq<Json.Value>)
    requires Collect(xs, item) == Prefixed(out, Collect(xs[|xs|..], item))
    ensures Collect(xs, item) == Success(out)
  {
    assert out + [] == out;
  }

  /** One block of `extract_from_request`: its text, type and meta, defaulted. */
  function NormalBlock(block: Json.Value): (r: Result<Json.Value, string>)
    ensures r.Success? <==> block.Obj?
  {
    match Json.GetOr(block, "text", Json.Str(""))
    case Failure(e) => Failure(e)
    case Success(text) =>
      var kind := Json.GetOr(block, "type", Json.Str("output")).value;
      var meta := Json.GetOr(block, "meta", Json.Obj([])).value;
      Success(Json.Obj([("text", text), ("type", kind), ("meta", meta)]))
  }

  function NormalItem(block: Json.Value): Result<seq<Json.Value>, string>
  {
    match NormalBlock(block)
    case Failure(e) => Failure(e)
    case Success(b) => Success([b])
  }

  /** `request_context[key]` when `key in request_context`, else `default`. */
  function Provided(rc: Json.Value, key: string, default: Json.Value): (r: Result<Json.Value, string>)
    ensures rc.Obj? ==> r == Success(Json.Get(rc.fields, key).UnwrapOr(default))
  {
    match Json.In(key, rc)
    case Failure(e) => Failure(e)
    case Success(present) => if present then Json.Index(rc, key) else Success(default)
  }

  /** The copied blocks of `extract_from_request`. */
  function RequestBlocks(rc: Json.Value): Result<seq<Json.Value>, string>
  {
    match Json.In("blocks", rc)
    case Failure(e) => Failure(e)
    case Success(hasBlocks) =>
      if !hasBlocks then Success([])
      else
        match Json.Index(rc, "blocks")
        case Failure(e) => Failure(e)
        case Success(bv) =>
          match Json.Iterate(bv)
          case Failure(e) => Failure(e)
          case Success(items) => Collect(items, NormalItem)
  }

  /**
   * `extract_from_request`: the working directory, the environment and the
   * git state of the host are parameters (`cwdDefault`, `envDefault` and
   * `gitState`, which stands for `_get_git_state`).
   */
  function ExtractSpec(rc: Json.Value, cwdDefault: string, envDefault: Json.Value, gitState: Json.Value -> Json.Value)
    : Result<Json.Fields, string>
  {
    match RequestBlocks(rc)
    case Failure(e) => Failure(e)
    case Success(bs) => AfterBlocks(rc, bs, cwdDefault, envDefault, gitState)
  }

  /** The rest of `extract_from_request`, once the blocks are copied. */
  function AfterBlocks(rc: Json.Value, bs: seq<Json.Value>, cwdDefault: string, envDefault: Json.Value,
                       gitState: Json.Value -> Json.Value): Result<Json.Fields, string>
  {
    match Provided(rc, "selection", Json.Null)
    case Failure(e) => Failure(e)
    case Success(selection) =>
      match Json.GetOr(rc, "cwd", Json.Str(cwdDefault))
      case Failure(e) => Failure(e)
      case Success(cwd) =>
        var git := Provided(rc, "git", gitState(cwd)).value;
        var env := Json.GetOr(rc, "env", envDefault).value;
        var references := Provided(rc, "references", Json.Arr([])).value;
        var attachments := Provided(rc, "attachments", Json.Arr([])).value;
        Success([("blocks", Json.Arr(bs)), ("selection", selection), ("cwd", cwd), ("git", git),
                 ("env", env), ("references", references), ("attachments", attachments)])
  }

  /** The loop of `extract_from_request` over the request's blocks. */
  method CopyBlocks(items: seq<Json.Value>) returns (r: Result<seq<Json.Value>, string>)
    ensures r == Collect(items, NormalItem)
  {
    var out: seq<Json.Value> := [];
    CollectStart(items, NormalItem);
    var i := 0;
    while i < |items|
      invariant 0 <= i <= |items|
      invariant Collect(items, NormalItem) == Prefixed(out, Collect(items[i..], NormalItem))
    {
      CollectStep(items, NormalItem, i, out);
      var text := Json.GetOr(items[i], "text", Json.Str(""));
      if text.Failure? {
        return Failure(text.error);
      }
      var kind := Json.GetOr(items[i], "type", Json.Str("output")).value;
      var meta := Json.GetOr(items[i], "meta", Json.Obj([])).value;
      out := out + [Json.Obj([("text", text.value), ("type", kind), ("meta", meta)])];
      i := i + 1;
    }
    CollectEnd(items, NormalItem, out);
    r := Success(out);
  }

  method ExtractFromRequest(rc: Json.Value, cwdDefault: string, envDefault: Json.Value, gitState: Json.Value -> Json.Value)
    returns (r: Result<Json.Fields, string>)
    ensures r == ExtractSpec(rc, cwdDefault, envDefault, gitState)
  {
    var hasBlocks := Json.In("blocks", rc);
    if hasBlocks.Failure? {
      return Failure(hasBlocks.error);
    }
    var bs: seq<Json.Value> := [];
    if hasBlocks.value {
      var bv := Json.Index(rc, "blocks");
      if bv.Failure? {
        return Failure(bv.error);
      }
      var items := Json.Iterate(bv.value);
      if items.Failure? {
        return Failure(items.error);
      }
      var copied := CopyBlocks(items.value);
      if copied.Failure? {
        return Failure(copied.error);
      }
      bs := copied.value;
    }
    r := AfterBlocks(rc, bs, cwdDefault, envDefault, gitState);
  }

  /** Copying a block twice gives the same block. */
  lemma NormalBlockIdempotent(b: Json.Value)
    requires b.Obj?
    ensures NormalItem(NormalBlock(b).value) == NormalItem(b)
  {
    var fields := NormalBlock(b).value.fields;
    Json.GetAt(fields, 0);
    Json.GetAt(fields, 1);
    Json.GetAt(fields, 2);
  }

  lemma {:induction false} CopyBlocksIdempotent(blocks: seq<Json.Value>)
    requires Collect(blocks, NormalItem).Success?
    ensures Collect(Collect(blocks, NormalItem).value, NormalItem) == Collect(blocks, NormalItem)
  {
    if |blocks| > 0 {
      var n := NormalBlock(blocks[0]).value;
      var rest := Collect(blocks[1..], NormalItem).value;
      NormalBlockIdempotent(blocks[0]);
      CopyBlocksIdempotent(blocks[1..]);
      assert ([n] + rest)[1..] == rest;
    }
  }

  const ContextKeys := ["blocks", "selection", "cwd", "git", "env", "references", "attachments"]

  /**
   * `extract_from_request` yields the seven context keys in order, copies a
   * provided selection, git state, reference list and attachment list as
   * they are, and takes the host's git state only when none is provided.
   */
  lemma ExtractedContext(rc: Json.Value, cwdDefault: string, envDefault: Json.Value, gitState: Json.Value -> Json.Value)
    requires ExtractSpec(rc, cwdDefault, envDefault, gitState).Success?
    ensures var r := ExtractSpec(rc, cwdDefault, envDefault, gitState).value;
      rc.Obj? && Json.Keys(r) == ContextKeys && Success(r[0].1.items) == RequestBlocks(rc)
      && r[1].1 == Json.Get(rc.fields, "selection").UnwrapOr(Json.Null)
      && r[2].1 == Json.Get(rc.fields, "cwd").UnwrapOr(Json.Str(cwdDefault))
      && r[3].1 == Json.Get(rc.fields, "git").UnwrapOr(gitState(r[2].1))
      && r[4].1 == Json.Get(rc.fields, "env").UnwrapOr(envDefault)
      && r[5].1 == Json.Get(rc.fields, "references").UnwrapOr(Json.Arr([]))
      && r[6].1 == Json.Get(rc.fields, "attachments").UnwrapOr(Json.Arr([]))
  {
  }

  /** In a context `extract_from_request` produced, each of the seven keys is found. */
  lemma ContextLookups(r: Json.Fields)
    requires Json.Keys(r) == ContextKeys
    ensures r == [("blocks", r[0].1), ("selection", r[1].1), ("cwd", r[2].1), ("git", r[3].1),
                  ("env", r[4].1), ("references", r[5].1), ("attachments", r[6].1)]
    ensures Json.Get(r, "blocks") == Some(r[0].1) && Json.Get(r, "selection") == Some(r[1].1)
    ensures Json.Get(r, "cwd") == Some(r[2].1) && Json.Get(r, "git") == Some(r[3].1) && Json.Get(r, "env") == Some(r[4].1)
    ensures Json.Get(r, "references") == Some(r[5].1) && Json.Get(r, "attachments") == Some(r[6].1)
  {
    ContextShape(r);
    ContextKeysUnique();
    assert Json.UniqueKeys(r) by {
      forall i, j | 0 <= i < j < |r|
        ensures r[i].0 != r[j].0
      {
        assert r[i].0 == ContextKeys[i] && r[j].0 == ContextKeys[j];
      }
    }
    Json.GetUnique(r, 0);
    Json.GetUnique(r, 1);
    Json.GetUnique(r, 2);
    Json.GetUnique(r, 3);
    Json.GetUnique(r, 4);
    Json.GetUnique(r, 5);
    Json.GetUnique(r, 6);
  }

  lemma ContextKeysUnique()
    ensures forall i, j :: 0 <= i < j < |ContextKeys| ==> ContextKeys[i] != ContextKeys[j]
  {
    assert ContextKeys[2][0] == 'c' && ContextKeys[3][0] == 'g' && ContextKeys[4][0] == 'e';
  }

  lemma ContextShape(r: Json.Fields)
    requires Json.Keys(r) == ContextKeys
    ensures r == [("blocks", r[0].1), ("selection", r[1].1), ("cwd", r[2].1), ("git", r[3].1),
                  ("env", r[4].1), ("references", r[5].1), ("attachments", r[6].1)]
  {
    assert |r| == |Json.Keys(r)| == 7;
    forall i | 0 <= i < 7
      ensures r[i] == (ContextKeys[i], r[i].1)
    {
      assert r[i].0 == Json.Keys(r)[i];
    }
  }

  /**
   * A context holding the seven keys in order, whose blocks are already
   * copied, passes through `extract_from_request` unchanged.
   */
  lemma ReextractContext(r: Json.Fields, cwdDefault: string, envDefault: Json.Value, gitState: Json.Value -> Json.Value)
    requires Json.Keys(r) == ContextKeys && r[0].1.Arr? && Collect(r[0].1.items, NormalItem) == Success(r[0].1.items)
    ensures ExtractSpec(Json.Obj(r), cwdDefault, envDefault, gitState) == Success(r)
  {
    ContextLookups(r);
    ProvidedBlocks(r, r[0].1.items);
    ReextractRest(Json.Obj(r), r[0].1, r[1].1, r[2].1, r[3].1, r[4].1, r[5].1, r[6].1, cwdDefault, envDefault, gitState);
  }

  lemma ProvidedBlocks(r: Json.Fields, bs: seq<Json.Value>)
    requires Json.Get(r, "blocks") == Some(Json.Arr(bs)) && Collect(bs, NormalItem) == Success(bs)
    ensures RequestBlocks(Json.Obj(r)) == Success(bs)
  {
    assert "blocks" in Json.Keys(r);
  }

  lemma ReextractRest(o: Json.Value, blocks: Json.Value, selection: Json.Value, cwd: Json.Value, git: Json.Value,
                      env: Json.Value, references: Json.Value, attachments: Json.Value,
                      cwdDefault: string, envDefault: Json.Value, gitState: Json.Value -> Json.Value)
    requires o.Obj? && blocks.Arr?
    requires Json.Get(o.fields, "selection") == Some(selection) && Json.Get(o.fields, "cwd") == Some(cwd)
    requires Json.Get(o.fields, "git") == Some(git) && Json.Get(o.fields, "env") == Some(env)
    requires Json.Get(o.fields, "references") == Some(references) && Json.Get(o.fields, "attachments") == Some(attachments)
    ensures AfterBlocks(o, blocks.items, cwdDefault, envDefault, gitState)
         == Success([("blocks", blocks), ("selection", selection), ("cwd", cwd), ("git", git),
                     ("env", env), ("references", references), ("attachments", attachments)])
  {
  }

  /** The blocks `extract_from_request` copied are copied again unchanged. */
  lemma RequestBlocksCopied(rc: Json.Value)
    requires RequestBlocks(rc).Success?
    ensures Collect(RequestBlocks(rc).value, NormalItem) == RequestBlocks(rc)
  {
    if Json.In("blocks", rc).value {
      CopyBlocksIdempotent(Json.Iterate(Json.Index(rc, "blocks").value).value);
    }
  }

  /** A context `extract_from_request` produced passes through it again unchanged. */
  lemma ExtractIdempotent(rc: Json.Value, cwdDefault: string, envDefault: Json.Value, gitState: Json.Value -> Json.Value)
    requires ExtractSpec(rc, cwdDefault, envDefault, gitState).Success?
    ensures ExtractSpec(Json.Obj(ExtractSpec(rc, cwdDefault, envDefault, gitState).value), cwdDefault, envDefault, gitState)
         == ExtractSpec(rc, cwdDefault, envDefault, gitState)
  {
    ExtractedContext(rc, cwdDefault, envDefault, gitState);
    RequestBlocksCopied(rc);
    ReextractContext(ExtractSpec(rc, cwdDefault, envDefault, gitState).value, cwdDefault, envDefault, gitState);
  }

  /** The text of an output block, or nothing; an error for a block that is not a dict. */
  function OutputItem(block: Json.Value): Result<seq<Json.Value>, string>
  {
    match Json.GetOr(block, "type", Json.Null)
    case Failure(e) => Failure(e)
    case Success(kind) =>
      Success(if kind == Json.Str("output") then [Json.GetOr(block, "text", Json.Str("")).value] else [])
  }

  /** `extract_terminal_output` */
  function TerminalOutput(blocks: seq<Json.Value>): Result<string, string>
  {
    match Collect(blocks, OutputItem)
    case Failure(e) => Failure(e)
    case Success(texts) => Json.JoinWith(texts, "\n")
  }

  method ExtractTerminalOutput(blocks: seq<Json.Value>) returns (r: Result<string, string>)
    ensures r == TerminalOutput(blocks)
  {
    var lines: seq<Json.Value> := [];
    CollectStart(blocks, OutputItem);
    var i := 0;
    while i < |blocks|
      invariant 0 <= i <= |blocks|
      invariant Collect(blocks, OutputItem) == Prefixed(lines, Collect(blocks[i..], OutputItem))
    {
      CollectStep(blocks, OutputItem, i, lines);
      var kind := Json.GetOr(blocks[i], "type", Json.Null);
      if kind.Failure? {
        return Failure(kind.error);
      }
      if kind.value == Json.Str("output") {
        lines := lines + [Json.GetOr(blocks[i], "text", Json.Str("")).value];
      } else {
        assert lines + OutputItem(blocks[i]).value == lines;
      }
      i := i + 1;
    }
    CollectEnd(blocks, OutputItem, lines);
    r := Json.JoinWith(lines, "\n");
  }

  /** Dict blocks whose texts, where present on an output block, are strings. */
  predicate WellFormedBlocks(blocks: seq<Json.Value>)
  {
    forall i :: 0 <= i < |blocks| ==> blocks[i].Obj? && (Json.Get(blocks[i].fields, "type") == Some(Json.Str("output")) ==>
      Json.Get(blocks[i].fields, "text").Some? ==> Json.Get(blocks[i].fields, "text").value.Str?)
  }

  /** The output blocks' texts, in block order, a missing text read as "". */
  function OutputStrings(blocks: seq<Json.Value>): seq<string>
  {
    if |blocks| == 0 then []
    else
      var b := blocks[0];
      (if b.Obj? && Json.Get(b.fields, "type") == Some(Json.Str("output"))
       then [match Json.Get(b.fields, "text") case Some(Str(t)) => t case _ => ""] else [])
      + OutputStrings(blocks[1..])
  }

  lemma {:induction false} OutputTextsAreStrings(blocks: seq<Json.Value>)
    requires WellFormedBlocks(blocks)
    ensures Collect(blocks, OutputItem).Success? && Json.AllStr(Collect(blocks, OutputItem).value)
    ensures Json.Strs(Collect(blocks, OutputItem).value) == OutputStrings(blocks)
  {
    if |blocks| > 0 {
      var b := blocks[0];
      assert WellFormedBlocks(blocks[1..]) by {
        forall i | 0 <= i < |blocks[1..]| ensures blocks[1..][i] == blocks[i + 1] { }
      }
      OutputTextsAreStrings(blocks[1..]);
      var rest := Collect(blocks[1..], OutputItem).value;
      assert b.Obj?;
      var mine := OutputItem(b).value;
      var head := if Json.Get(b.fields, "type") == Some(Json.Str("output"))
                  then [match Json.Get(b.fields, "text") case Some(Str(t)) => t case _ => ""] else [];
      assert Json.AllStr(mine) && Json.Strs(mine) == head;
      assert Collect(blocks, OutputItem) == Success(mine + rest);
      Json.StrsAppend(mine, rest);
    }
  }

  /**
   * `extract_terminal_output` joins the output blocks' texts with "\n", in
   * order; when no text holds a newline, splitting the result on "\n" gives
   * those texts back.
   */
  lemma TerminalOutputLines(blocks: seq<Json.Value>)
    requires WellFormedBlocks(blocks)
    ensures TerminalOutput(blocks) == Success(Text.Join(OutputStrings(blocks), "\n"))
    ensures |OutputStrings(blocks)| >= 1 && (forall i :: 0 <= i < |OutputStrings(blocks)| ==> '\n' !in OutputStrings(blocks)[i])
      ==> Text.Split(TerminalOutput(blocks).value, '\n') == OutputStrings(blocks)
  {
    OutputTextsAreStrings(blocks);
    var texts := OutputStrings(blocks);
    if |texts| >= 1 && (forall i :: 0 <= i < |texts| ==> '\n' !in texts[i]) {
      Text.SplitJoin(texts, '\n');
    }
  }

  /** `0 <= v` for the value of `block_index`. */
  function NonNegative(v: Json.Value): Result<bool, string>
  {
    match v
    case Int(i) => Success(0 <= i)
    case Bool(_) => Success(true)
    case _ => Failure("'<=' not supported between instances of 'int' and '" + Json.TypeName(v) + "'")
  }

  /** The integer of an int or bool. */
  function AsInt(v: Json.Value): int
  {
    match v case Int(i) => i case Bool(b) => if b then 1 else 0 case _ => 0
  }

  /** `str(KeyError(v))` for an int or bool key. */
  function KeyText(v: Json.Value): string
  {
    match v case Bool(b) => if b then "True" else "False" case _ => Text.IntToString(AsInt(v))
  }

  /** `container[v]` for an int or bool `v` with `0 <= v < len(container)`. */
  function ItemAt(container: Json.Value, v: Json.Value): (r: Result<Json.Value, string>)
    requires 0 <= AsInt(v)
    requires container.Str? ==> AsInt(v) < |container.s|
    requires container.Arr? ==> AsInt(v) < |container.items|
    ensures container.Arr? ==> r == Success(container.items[AsInt(v)])
  {
    match container
    case Arr(items) => Success(items[AsInt(v)])
    case Str(s) => Success(Json.Str([s[AsInt(v)]]))
    case Obj(_) => Failure(KeyText(v))   // the dict's keys are strings
    case _ => Failure("'" + Json.TypeName(container) + "' object is not subscriptable")
  }

  /** A slice bound: an int, a bool, or None for the default. */
  function SliceIndex(v: Json.Value, default: int): Result<int, string>
  {
    match v
    case Null => Success(default)
    case Int(i) => Success(i)
    case Bool(b) => Success(if b then 1 else 0)
    case _ => Failure("slice indices must be integers or None or have an __index__ method")
  }

  function ListSlice<T>(s: seq<T>, start: int, end: int): seq<T>
  {
    var lo, hi := Text.SliceBound(start, |s|), Text.SliceBound(end, |s|);
    if lo < hi then s[lo..hi] else []
  }

  /** `v[start:end]` */
  function SliceOf(v: Json.Value, start: Json.Value, end: Json.Value): (r: Result<Json.Value, string>)
    ensures v.Str? && start.Int? && end.Int? ==> r == Success(Json.Str(Text.PySlice(v.s, start.i, end.i)))
  {
    match v
    case Str(s) =>
      (match (SliceIndex(start, 0), SliceIndex(end, |s|))
       case (Success(lo), Success(hi)) => Success(Json.Str(Text.PySlice(s, lo, hi)))
       case _ => Failure("slice indices must be integers or None or have an __index__ method"))
    case Arr(items) =>
      (match (SliceIndex(start, 0), SliceIndex(end, |items|))
       case (Success(lo), Success(hi)) => Success(Json.Arr(ListSlice(items, lo, hi)))
       case _ => Failure("slice indices must be integers or None or have an __index__ method"))
    // The message of Python up to 3.11; from 3.12 slices are hashable and a
    // dict raises KeyError here instead.
    case Obj(_) => Failure("unhashable type: 'slice'")
    case _ => Failure("'" + Json.TypeName(v) + "' object is not subscriptable")
  }

  /** `'block_index' in selection and 'start' in selection and 'end' in selection` */
  function HasRange(selection: Json.Value): (r: Result<bool, string>)
    ensures selection.Obj? ==> r == Success("block_index" in Json.Keys(selection.fields)
                                              && "start" in Json.Keys(selection.fields) && "end" in Json.Keys(selection.fields))
  {
    match Json.In("block_index", selection)
    case Failure(e) => Failure(e)
    case Success(b) =>
      if !b then Success(false)
      else
        match Json.In("start", selection)
        case Failure(e) => Failure(e)
        case Success(s) => if !s then Success(false) else Json.In("end", selection)
  }

  /** `extract_selected_text` */
  function SelectedText(context: Json.Value): Result<Option<Json.Value>, string>
  {
    match Json.GetOr(context, "selection", Json.Null)
    case Failure(e) => Failure(e)
    case Success(selection) =>
      if !Json.Truthy(selection) then Success(None)
      else
        var blocks := Json.GetOr(context, "blocks", Json.Arr([])).value;
        match HasRange(selection)
        case Failure(e) => Failure(e)
        case Success(hasRange) =>
          if !hasRange then Success(None)
          else
            match Json.Index(selection, "block_index")
            case Failure(e) => Failure(e)
            case Success(idx) =>
              match NonNegative(idx)
              case Failure(e) => Failure(e)
              case Success(nonNegative) =>
                if !nonNegative then Success(None)
                else
                  match Json.Len(blocks)
                  case Failure(e) => Failure(e)
                  case Success(n) =>
                    if AsInt(idx) >= n then Success(None)
                    else SelectedIn(selection, blocks, idx)
  }

  /** The end of `extract_selected_text`, once `0 <= block_index < len(blocks)` holds. */
  function SelectedIn(selection: Json.Value, blocks: Json.Value, idx: Json.Value): Result<Option<Json.Value>, string>
    requires selection.Obj? && 0 <= AsInt(idx)
    requires blocks.Str? ==> AsInt(idx) < |blocks.s|
    requires blocks.Arr? ==> AsInt(idx) < |blocks.items|
  {
    match ItemAt(blocks, idx)
    case Failure(e) => Failure(e)
    case Success(block) =>
      match Json.GetOr(block, "text", Json.Str(""))
      case Failure(e) => Failure(e)
      case Success(text) =>
        match Json.Len(text)   // the default of `get` is evaluated first
        case Failure(e) => Failure(e)
        case Success(n) =>
          var start := Json.GetOr(selection, "start", Json.Int(0)).value;
          var end := Json.GetOr(selection, "end", Json.Int(n)).value;
          match SliceOf(text, start, end)
          case Failure(e) => Failure(e)
          case Success(v) => Success(Some(v))
  }

  /**
   * A selection is found only when the context's selection is truthy, holds
   * block_index, start and end, and `0 <= block_index < len(blocks)`.
   */
  lemma SelectionNeedsRange(context: Json.Value)
    requires SelectedText(context).Success? && SelectedText(context).value.Some?
    ensures context.Obj?
    ensures var selection := Json.Get(context.fields, "selection").UnwrapOr(Json.Null);
      var blocks := Json.Get(context.fields, "blocks").UnwrapOr(Json.Arr([]));
      Json.Truthy(selection) && selection.Obj?
      && "block_index" in Json.Keys(selection.fields) && "start" in Json.Keys(selection.fields) && "end" in Json.Keys(selection.fields)
      && var idx := Json.Get(selection.fields, "block_index").value;
         (idx.Int? || idx.Bool?) && 0 <= AsInt(idx) && Json.Len(blocks).Success? && AsInt(idx) < Json.Len(blocks).value
  {
  }

  /**
   * For a context of the documented shape, the selection is the block's
   * text sliced from start to end when `0 <= block_index < len(blocks)`,
   * and None otherwise.
   */
  lemma SelectionOfWellFormed(context: Json.Fields, selection: Json.Fields, blocks: seq<Json.Value>, k: int, start: int, end: int)
    requires Json.Get(context, "selection") == Some(Json.Obj(selection)) && selection != []
    requires Json.Get(context, "blocks") == Some(Json.Arr(blocks))
    requires Json.Get(selection, "block_index") == Some(Json.Int(k))
    requires Json.Get(selection, "start") == Some(Json.Int(start)) && Json.Get(selection, "end") == Some(Json.Int(end))
    requires forall i :: 0 <= i < |blocks| ==>
               blocks[i].Obj? && Json.Get(blocks[i].fields, "text").Some? && Json.Get(blocks[i].fields, "text").value.Str?
    ensures !(0 <= k < |blocks|) ==> SelectedText(Json.Obj(context)) == Success(None)
    ensures 0 <= k < |blocks| ==>
      SelectedText(Json.Obj(context)) == Success(Some(Json.Str(Text.PySlice(Json.Get(blocks[k].fields, "text").value.s, start, end))))
  {
    assert "block_index" in Json.Keys(selection) && "start" in Json.Keys(selection) && "end" in Json.Keys(selection);
  }

  /** The path of a file reference, or nothing; an error for a reference that is not a dict. */
  function FileItem(ref: Json.Value): Result<seq<Json.Value>, string>
  {
    match Json.GetOr(ref, "type", Json.Null)
    case Failure(e) => Failure(e)
    case Success(kind) =>
      Success(if kind == Json.Str("file") then [Json.GetOr(ref, "path", Json.Null).value] else [])
  }

  /** `extract_file_references` */
  function FileReferences(context: Json.Value): Result<seq<Json.Value>, string>
  {
    match Json.GetOr(context, "references", Json.Arr([]))
    case Failure(e) => Failure(e)
    case Success(rv) =>
      match Json.Iterate(rv)
      case Failure(e) => Failure(e)
      case Success(refs) => Collect(refs, FileItem)
  }

  method ExtractFileReferences(context: Json.Value) returns (r: Result<seq<Json.Value>, string>)
    ensures r == FileReferences(context)
  {
    var rv := Json.GetOr(context, "references", Json.Arr([]));
    if rv.Failure? {
      return Failure(rv.error);
    }
    var refs := Json.Iterate(rv.value);
    if refs.Failure? {
      return Failure(refs.error);
    }
    var rs := refs.value;
    var files: seq<Json.Value> := [];
    CollectStart(rs, FileItem);
    var i := 0;
    while i < |rs|
      invariant 0 <= i <= |rs|
      invariant Collect(rs, FileItem) == Prefixed(files, Collect(rs[i..], FileItem))
    {
      CollectStep(rs, FileItem, i, files);
      var kind := Json.GetOr(rs[i], "type", Json.Null);
      if kind.Failure? {
        return Failure(kind.error);
      }
      if kind.value == Json.Str("file") {
        files := files + [Json.GetOr(rs[i], "path", Json.Null).value];
      } else {
        assert files + FileItem(rs[i]).value == files;
      }
      i := i + 1;
    }
    CollectEnd(rs, FileItem, files);
    r := Success(files);
  }

  predicate IsFileRef(ref: Json.Value)
  {
    ref.Obj? && Json.Get(ref.fields, "type") == Some(Json.Str("file"))
  }

  /** The file references among `refs`, in order. */
  function FileRefs(refs: seq<Json.Value>): (r: seq<Json.Value>)
    ensures forall x :: x in r ==> x in refs && IsFileRef(x)
    ensures forall x :: x in refs && IsFileRef(x) ==> x in r
  {
    if |refs| == 0 then []
    else
      var rest := FileRefs(refs[1..]);
      assert forall x :: x in refs ==> x == refs[0] || x in refs[1..];
      (if IsFileRef(refs[0]) then [refs[0]] else []) + rest
  }

  /** `ref.get('path')` for a dict reference. */
  function PathOf(ref: Json.Value): Json.Value
  {
    if ref.Obj? then Json.Get(ref.fields, "path").UnwrapOr(Json.Null) else Json.Null
  }

  /** The path of each reference. */
  function Paths(refs: seq<Json.Value>): (r: seq<Json.Value>)
    ensures |r| == |refs| && forall i :: 0 <= i < |refs| ==> r[i] == PathOf(refs[i])
  {
    seq(|refs|, i requires 0 <= i < |refs| => PathOf(refs[i]))
  }

  /** A collecting loop fails exactly when one of its elements raises. */
  lemma {:induction false} CollectSucceeds(xs: seq<Json.Value>, item: Json.Value -> Result<seq<Json.Value>, string>)
    ensures Collect(xs, item).Success? <==> forall i :: 0 <= i < |xs| ==> item(xs[i]).Success?
  {
    if |xs| > 0 {
      CollectSucceeds(xs[1..], item);
      assert (forall i :: 0 <= i < |xs| ==> item(xs[i]).Success?)
         <==> item(xs[0]).Success? && forall i :: 0 <= i < |xs[1..]| ==> item(xs[1..][i]).Success?;
    }
  }

  lemma FileItemOfDict(ref: Json.Value)
    requires ref.Obj?
    ensures FileItem(ref) == Success(Paths(if IsFileRef(ref) then [ref] else []))
  {
    var kind := Json.Get(ref.fields, "type").UnwrapOr(Json.Null);
    assert Json.GetOr(ref, "type", Json.Null) == Success(kind);
    assert kind == Json.Str("file") <==> IsFileRef(ref);
    if IsFileRef(ref) {
      assert Paths([ref]) == [PathOf(ref)];
    } else {
      assert Paths([]) == [];
    }
  }

  lemma {:induction false} FilePathsOfDicts(refs: seq<Json.Value>)
    requires forall i :: 0 <= i < |refs| ==> refs[i].Obj?
    ensures Collect(refs, FileItem) == Success(Paths(FileRefs(refs)))
  {
    if |refs| > 0 {
      FilePathsOfDicts(refs[1..]);
      FileItemOfDict(refs[0]);
      var head: seq<Json.Value> := if IsFileRef(refs[0]) then [refs[0]] else [];
      assert FileRefs(refs) == head + FileRefs(refs[1..]);
      assert Paths(head + FileRefs(refs[1..])) == Paths(head) + Paths(FileRefs(refs[1..]));
    }
  }

  /**
   * `extract_file_references` gives, in order, the path of each reference
   * whose type is "file", and fails only on a reference that is not a dict.
   */
  lemma FileReferencePaths(refs: seq<Json.Value>)
    ensures Collect(refs, FileItem).Success? <==> forall i :: 0 <= i < |refs| ==> refs[i].Obj?
    ensures Collect(refs, FileItem).Success? ==> Collect(refs, FileItem).value == Paths(FileRefs(refs))
  {
    CollectSucceeds(refs, FileItem);
    assert (forall i :: 0 <= i < |refs| ==> FileItem(refs[i]).Success?) <==> forall i :: 0 <= i < |refs| ==> refs[i].Obj?;
    if forall i :: 0 <= i < |refs| ==> refs[i].Obj? {
      FilePathsOfDicts(refs);
    }
  }

  // ---- WarpOutputFormatter: block constructors ----

  function RunAction(command: string): Json.Value
  {
    Json.Obj([("type", Json.Str("run")), ("command", Json.Str(command))])
  }

  /** `create_code_block` */
  function CreateCodeBlock(code: string, language: string, lineNumbers: bool): (b: WarpBlock)
    ensures b.kind == CODE && b.text == Some(code)
    ensures b.meta == Some([("language", Json.Str(language)), ("line_numbers", Json.Bool(lineNumbers))])
    ensures b.actions.None? && b.url.None? && b.mediaType.None? && b.filename.None? && b.filepath.None? && b.content.None?
  {
    Bare(CODE).(text := Some(code), meta := Some([("language", Json.Str(language)), ("line_numbers", Json.Bool(lineNumbers))]))
  }

  /**
   * `create_command_block`: an executable command gets exactly one `run`
   * action carrying the command, any other none; a non-empty description
   * goes into `meta`.
   */
  function CreateCommandBlock(command: string, executable: bool, description: Option<string>): (b: WarpBlock)
    ensures b.kind == COMMAND && b.text == Some(command) && b.actions.Some?
    ensures executable ==> |b.actions.value| == 1 && b.actions.value[0] == RunAction(command)
    ensures !executable ==> b.actions.value == []
    ensures b.meta.Some? <==> description.Some? && description.value != ""
    ensures b.meta.Some? ==> b.meta.value == [("description", Json.Str(description.value))]
  {
    var block := Bare(COMMAND).(text := Some(command), actions := Some(if executable then [RunAction(command)] else []));
    if description.Some? && description.value != "" then block.(meta := Some([("description", Json.Str(description.value))]))
    else block
  }

  /** `create_file_block`: without a (non-empty) path the file goes to /tmp under its own name. */
  function CreateFileBlock(filename: string, content: string, filepath: Option<string>): (b: WarpBlock)
    ensures b.kind == FILE && b.filename == Some(filename) && b.content == Some(content)
    ensures filepath.None? || filepath.value == "" ==> b.filepath == Some("/tmp/" + filename)
    ensures filepath.Some? && filepath.value != "" ==> b.filepath == filepath
    ensures b.text.None? && b.meta.None? && b.actions.None? && b.url.None? && b.mediaType.None?
  {
    Bare(FILE).(filename := Some(filename),
                filepath := Some(if filepath.Some? && filepath.value != "" then filepath.value else "/tmp/" + filename),
                content := Some(content))
  }

  /**
   * `create_media_block`: a local path given without a URL is turned into
   * a data URL; `dataUrl` is what `_file_to_data_url` returns for it (""
   * when the file cannot be read).
   */
  function CreateMediaBlock(url: Option<string>, path: Option<string>, mediaType: string, dataUrl: string): (b: WarpBlock)
    ensures b.kind == MEDIA && b.mediaType == Some(mediaType)
    ensures b.url == if path.Some? && path.value != "" && (url.None? || url.value == "") then Some(dataUrl) else url
    ensures b.text.None? && b.meta.None? && b.filename.None? && b.filepath.None? && b.content.None?
  {
    var u := if path.Some? && path.value != "" && (url.None? || url.value == "") then Some(dataUrl) else url;
    Bare(MEDIA).(url := u, mediaType := Some(mediaType))
  }

  /** `create_text_block` */
  function CreateTextBlock(text: string): (b: WarpBlock)
    ensures b.kind == TEXT && b.text == Some(text)
    ensures b.meta.None? && b.actions.None? && b.url.None? && b.mediaType.None? && b.filename.None? && b.filepath.None? && b.content.None?
  {
    Bare(TEXT).(text := Some(text))
  }

  const ErrorPrefix := "\U{274C} Error: "

  /** `create_error_block`: the text starts with the error marker and the error; details follow when non-empty. */
  function CreateErrorBlock(error: string, details: Option<string>): (b: WarpBlock)
    ensures b.kind == ERROR && b.text.Some? && b.meta == Some([("severity", Json.Str("error"))])
    ensures ErrorPrefix + error <= b.text.value
    ensures details.Some? && details.value != "" ==> b.text.value == ErrorPrefix + error + "\n\nDetails:\n" + details.value
    ensures details.None? || details.value == "" ==> b.text.value == ErrorPrefix + error
  {
    var text := ErrorPrefix + error;
    var text := if details.Some? && details.value != "" then text + "\n\nDetails:\n" + details.value else text;
    Bare(ERROR).(text := Some(text), meta := Some([("severity", Json.Str("error"))]))
  }

  // ---- WarpOutputFormatter.format_response ----

  /** The last component of a path, as `PurePosixPath(p).name` gives it. */
  function PathName(p: string): string
  {
    LastComponent(Text.Split(p, '/'))
  }

  function LastComponent(parts: seq<string>): string
  {
    if |parts| == 0 then ""
    else if parts[|parts| - 1] == "" || parts[|parts| - 1] == "." then LastComponent(parts[..|parts| - 1])
    else parts[|parts| - 1]
  }

  /** `PurePath.suffix`: from the last dot, unless the dot starts or ends the name. */
  function Suffix(name: string): string
  {
    var i := Text.RFind(name, '.');
    if 0 < i < |name| - 1 then name[i..] else ""
  }

  /** The code language `format_response` gives a file: its suffix without the dot, or "text". */
  function Language(filename: string): (lang: string)
    ensures lang != "" && '.' !in lang
    ensures lang == "text" || (|lang| < |PathName(filename)| && PathName(filename)[|PathName(filename)| - |lang| - 1..] == "." + lang)
  {
    var name := PathName(filename);
    var suffix := Suffix(name);
    if suffix == "" then "text"
    else
      var i := Text.RFind(name, '.');
      assert name[i..] == "." + suffix[1..];
      suffix[1..]
  }

  function Items<X>(o: Option<seq<X>>): seq<X>
  {
    match o case Some(xs) => xs case None => []
  }

  function MapBlocks<X>(xs: seq<X>, make: X -> WarpBlock): (r: seq<WarpBlock>)
    ensures |r| == |xs| && forall i :: 0 <= i < |xs| ==> r[i] == make(xs[i])
  {
    seq(|xs|, i requires 0 <= i < |xs| => make(xs[i]))
  }

  function Dicts(blocks: seq<WarpBlock>): (r: seq<Json.Value>)
    ensures |r| == |blocks| && forall i :: 0 <= i < |blocks| ==> r[i] == Json.Obj(ToDict(blocks[i]))
  {
    seq(|blocks|, i requires 0 <= i < |blocks| => Json.Obj(ToDict(blocks[i])))
  }

  function Kinds(blocks: seq<WarpBlock>): (r: seq<BlockType>)
    ensures |r| == |blocks| && forall i :: 0 <= i < |blocks| ==> r[i] == blocks[i].kind
  {
    seq(|blocks|, i requires 0 <= i < |blocks| => blocks[i].kind)
  }

  function Rep(t: BlockType, n: nat): (r: seq<BlockType>)
    ensures |r| == n && forall i :: 0 <= i < n ==> r[i] == t
  {
    seq(n, i => t)
  }

  lemma KindsAppend(a: seq<WarpBlock>, b: seq<WarpBlock>)
    ensures Kinds(a + b) == Kinds(a) + Kinds(b)
  {
  }

  lemma DictsAppend(a: seq<WarpBlock>, b: seq<WarpBlock>)
    ensures Dicts(a + b) == Dicts(a) + Dicts(b)
  {
  }

  function TextBlocks(text: Option<string>): (r: seq<WarpBlock>)
    ensures Kinds(r) == Rep(TEXT, if text.Some? && text.value != "" then 1 else 0)
  {
    if text.Some? && text.value != "" then [CreateTextBlock(text.value)] else []
  }

  function CodeBlockOf(item: (string, string)): WarpBlock
  {
    CreateCodeBlock(item.1, Language(item.0), false)
  }

  function CodeBlocks(code: Option<seq<(string, string)>>): (r: seq<WarpBlock>)
    ensures Kinds(r) == Rep(CODE, |Items(code)|)
    ensures forall i :: 0 <= i < |r| ==>
      r[i].meta == Some([("language", Json.Str(Language(Items(code)[i].0))), ("line_numbers", Json.Bool(false))])
  {
    MapBlocks(Items(code), CodeBlockOf)
  }

  function CommandBlockOf(command: string): WarpBlock
  {
    CreateCommandBlock(command, true, None)
  }

  function CommandBlocks(commands: Option<seq<string>>): (r: seq<WarpBlock>)
    ensures Kinds(r) == Rep(COMMAND, |Items(commands)|)
  {
    MapBlocks(Items(commands), CommandBlockOf)
  }

  function FileBlockOf(item: (string, string)): WarpBlock
  {
    CreateFileBlock(item.0, item.1, None)
  }

  function FileBlocks(files: Option<seq<(string, string)>>): (r: seq<WarpBlock>)
    ensures Kinds(r) == Rep(FILE, |Items(files)|)
  {
    MapBlocks(Items(files), FileBlockOf)
  }

  /** Media blocks for local files of one media type, each given a data URL. */
  function MediaBlocks(paths: Option<seq<string>>, mediaType: string, dataUrl: (string, string) -> string): (r: seq<WarpBlock>)
    ensures Kinds(r) == Rep(MEDIA, |Items(paths)|)
  {
    var ps := Items(paths);
    var r := seq(|ps|, i requires 0 <= i < |ps| => CreateMediaBlock(None, Some(ps[i]), mediaType, dataUrl(ps[i], mediaType)));
    forall i | 0 <= i < |r|
      ensures r[i].kind == MEDIA
    {
      var b := CreateMediaBlock(None, Some(ps[i]), mediaType, dataUrl(ps[i], mediaType));
      assert r[i] == b;
    }
    r
  }

  function ErrorBlockOf(error: string): WarpBlock
  {
    CreateErrorBlock(error, None)
  }

  function ErrorBlocks(errors: Option<seq<string>>): (r: seq<WarpBlock>)
    ensures Kinds(r) == Rep(ERROR, |Items(errors)|)
  {
    MapBlocks(Items(errors), ErrorBlockOf)
  }

  /** The blocks of `format_response`, before `to_dict`. */
  function ResponseBlocks(text: Option<string>, code: Option<seq<(string, string)>>, commands: Option<seq<string>>,
                          files: Option<seq<(string, string)>>, images: Option<seq<string>>, videos: Option<seq<string>>,
                          errors: Option<seq<string>>, dataUrl: (string, string) -> string): seq<WarpBlock>
  {
    TextBlocks(text) + CodeBlocks(code) + CommandBlocks(commands) + FileBlocks(files)
    + MediaBlocks(images, "image/png", dataUrl) + MediaBlocks(videos, "video/mp4", dataUrl) + ErrorBlocks(errors)
  }

  /**
   * `format_response` emits its blocks in the order text, code, commands,
   * files, images, videos, errors: one per item, and one text block only
   * for a non-empty text.
   */
  lemma ResponseBlockOrder(text: Option<string>, code: Option<seq<(string, string)>>, commands: Option<seq<string>>,
                           files: Option<seq<(string, string)>>, images: Option<seq<string>>, videos: Option<seq<string>>,
                           errors: Option<seq<string>>, dataUrl: (string, string) -> string)
    ensures Kinds(ResponseBlocks(text, code, commands, files, images, videos, errors, dataUrl))
         == Rep(TEXT, if text.Some? && text.value != "" then 1 else 0) + Rep(CODE, |Items(code)|)
            + Rep(COMMAND, |Items(commands)|) + Rep(FILE, |Items(files)|)
            + Rep(MEDIA, |Items(images)| + |Items(videos)|) + Rep(ERROR, |Items(errors)|)
  {
    var ts, cs, ms, fs := TextBlocks(text), CodeBlocks(code), CommandBlocks(commands), FileBlocks(files);
    var ims, vs, es := MediaBlocks(images, "image/png", dataUrl), MediaBlocks(videos, "video/mp4", dataUrl), ErrorBlocks(errors);
    KindsOfSeven(ts, cs, ms, fs, ims, vs, es);
    MergeMiddle(Kinds(ts) + Kinds(cs) + Kinds(ms) + Kinds(fs), Rep(MEDIA, |ims|), Rep(MEDIA, |vs|),
                Rep(MEDIA, |ims| + |vs|), Kinds(es));
  }

  /** The kinds of seven runs of blocks laid end to end. */
  lemma KindsOfSeven(a: seq<WarpBlock>, b: seq<WarpBlock>, c: seq<WarpBlock>, d: seq<WarpBlock>,
                     e: seq<WarpBlock>, f: seq<WarpBlock>, g: seq<WarpBlock>)
    ensures Kinds(a + b + c + d + e + f + g) == Kinds(a) + Kinds(b) + Kinds(c) + Kinds(d) + Kinds(e) + Kinds(f) + Kinds(g)
  {
    KindsAppend(a, b);
    KindsAppend(a + b, c);
    KindsAppend(a + b + c, d);
    KindsAppend(a + b + c + d, e);
    KindsAppend(a + b + c + d + e, f);
    KindsAppend(a + b + c + d + e + f, g);
  }

  /** Two adjacent runs of one kind read as a single run. */
  lemma MergeMiddle(p: seq<BlockType>, x: seq<BlockType>, y: seq<BlockType>, z: seq<BlockType>, q: seq<BlockType>)
    requires x + y == z
    ensures p + x + y + q == p + z + q
  {
    assert p + x + y == p + (x + y);
  }

  /** One loop of `format_response`: a block per item, appended in order. */
  method AppendBlocks<X>(blocks: seq<Json.Value>, xs: seq<X>, make: X -> WarpBlock) returns (r: seq<Json.Value>)
    ensures r == blocks + Dicts(MapBlocks(xs, make))
  {
    r := blocks;
    var i := 0;
    while i < |xs|
      invariant 0 <= i <= |xs|
      invariant r == blocks + Dicts(MapBlocks(xs[..i], make))
    {
      assert Dicts(MapBlocks(xs[..i + 1], make)) == Dicts(MapBlocks(xs[..i], make)) + [Json.Obj(ToDict(make(xs[i])))];
      r := r + [Json.Obj(ToDict(make(xs[i])))];
      i := i + 1;
    }
    assert xs[..i] == xs;
  }

  /** The image or video loop of `format_response`. */
  method AppendMedia(blocks: seq<Json.Value>, paths: Option<seq<string>>, mediaType: string, dataUrl: (string, string) -> string)
    returns (r: seq<Json.Value>)
    ensures r == blocks + Dicts(MediaBlocks(paths, mediaType, dataUrl))
  {
    var ps := Items(paths);
    r := blocks;
    var i := 0;
    while i < |ps|
      invariant 0 <= i <= |ps|
      invariant r == blocks + Dicts(MediaBlocks(Some(ps[..i]), mediaType, dataUrl))
    {
      var block := CreateMediaBlock(None, Some(ps[i]), mediaType, dataUrl(ps[i], mediaType));
      assert Dicts(MediaBlocks(Some(ps[..i + 1]), mediaType, dataUrl))
          == Dicts(MediaBlocks(Some(ps[..i]), mediaType, dataUrl)) + [Json.Obj(ToDict(block))];
      r := r + [Json.Obj(ToDict(block))];
      i := i + 1;
    }
    assert ps[..i] == ps;
  }

  method FormatResponse(text: Option<string>, code: Option<seq<(string, string)>>, commands: Option<seq<string>>,
                        files: Option<seq<(string, string)>>, images: Option<seq<string>>, videos: Option<seq<string>>,
                        errors: Option<seq<string>>, dataUrl: (string, string) -> string) returns (blocks: seq<Json.Value>)
    ensures blocks == Dicts(ResponseBlocks(text, code, commands, files, images, videos, errors, dataUrl))
  {
    blocks := Dicts(TextBlocks(text));
    blocks := AppendBlocks(blocks, Items(code), CodeBlockOf);
    blocks := AppendBlocks(blocks, Items(commands), CommandBlockOf);
    blocks := AppendBlocks(blocks, Items(files), FileBlockOf);
    blocks := AppendMedia(blocks, images, "image/png", dataUrl);
    blocks := AppendMedia(blocks, videos, "video/mp4", dataUrl);
    blocks := AppendBlocks(blocks, Items(errors), ErrorBlockOf);
    var ts, cs, ms, fs := TextBlocks(text), CodeBlocks(code), CommandBlocks(commands), FileBlocks(files);
    var ims, vs, es := MediaBlocks(images, "image/png", dataUrl), MediaBlocks(videos, "video/mp4", dataUrl), ErrorBlocks(errors);
    DictsAppend(ts + cs + ms + fs + ims + vs, es);
    DictsAppend(ts + cs + ms + fs + ims, vs);
    DictsAppend(ts + cs + ms + fs, ims);
    DictsAppend(ts + cs + ms, fs);
    DictsAppend(ts + cs, ms);
    DictsAppend(ts, cs);
  }

  // ---- WarpActionExecutor.parse_and_execute_actions: the marker scan ----

  /** An action the scan finds; running it is left to the host. */
  datatype Action = Execute(command: string) | CreateFile(filepath: string, content: string)

  const ExecuteMarker := "[EXECUTE]:"
  const CreateFileMarker := "[CREATE_FILE]:"

  /** The raw (unstripped) test that ends a file's content. */
  predicate StartsBracket(line: string)
  {
    |line| > 0 && line[0] == '['
  }

  /** The first line at or after `j` that starts with '[', or the end. */
  function ContentEnd(lines: seq<string>, j: nat): (k: nat)
    requires j <= |lines|
    ensures j <= k <= |lines|
    ensures forall m :: j <= m < k ==> !StartsBracket(lines[m])
    ensures k < |lines| ==> StartsBracket(lines[k])
    decreases |lines| - j
  {
    if j == |lines| || StartsBracket(lines[j]) then j else ContentEnd(lines, j + 1)
  }

  /** What a line is to the scan, once stripped. */
  datatype LineKind = ExecuteLine(command: string) | CreateFileLine(filepath: string) | Plain

  function KindOf(line: string): LineKind
  {
    var s := Text.Strip(line);
    if ExecuteMarker <= s then ExecuteLine(Text.Strip(s[|ExecuteMarker|..]))
    else if CreateFileMarker <= s then CreateFileLine(Text.Strip(s[|CreateFileMarker|..]))
    else Plain
  }

  /** The kind of every line. */
  function KindsOf(lines: seq<string>): (kinds: seq<LineKind>)
    ensures |kinds| == |lines| && forall j :: 0 <= j < |lines| ==> kinds[j] == KindOf(lines[j])
  {
    seq(|lines|, j requires 0 <= j < |lines| => KindOf(lines[j]))
  }

  /** The action of a marker line at `j`. */
  function ActionAt(lines: seq<string>, kinds: seq<LineKind>, j: nat): Action
    requires |kinds| == |lines| && j < |lines| && !kinds[j].Plain?
  {
    match kinds[j]
    case ExecuteLine(command) => Execute(command)
    case CreateFileLine(filepath) => CreateFile(filepath, Text.Join(lines[j + 1..ContentEnd(lines, j + 1)], "\n"))
  }

  /** Where the scan goes on after the marker line at `j`. */
  function After(lines: seq<string>, kinds: seq<LineKind>, j: nat): (k: nat)
    requires |kinds| == |lines| && j < |lines| && !kinds[j].Plain?
    ensures j < k <= |lines|
  {
    if kinds[j].ExecuteLine? then j + 1 else ContentEnd(lines, j + 1)
  }

  /** The actions found from line `i` on, given each line's kind. */
  function Scan(lines: seq<string>, kinds: seq<LineKind>, i: nat): seq<Action>
    requires |kinds| == |lines| && i <= |lines|
    decreases |lines| - i
  {
    if i == |lines| then []
    else if !kinds[i].Plain? then [ActionAt(lines, kinds, i)] + Scan(lines, kinds, After(lines, kinds, i))
    else Scan(lines, kinds, i + 1)
  }

  /** The marker lines the scan acts on from line `i` on. */
  function MarkerLines(lines: seq<string>, kinds: seq<LineKind>, i: nat): (r: seq<nat>)
    requires |kinds| == |lines| && i <= |lines|
    ensures forall n :: 0 <= n < |r| ==> i <= r[n] < |lines|
    decreases |lines| - i
  {
    if i == |lines| then []
    else if !kinds[i].Plain? then [i] + MarkerLines(lines, kinds, After(lines, kinds, i))
    else MarkerLines(lines, kinds, i + 1)
  }

  /** The n-th action is the action of the n-th marker line. */
  lemma {:induction false} MarkerLinesMatch(lines: seq<string>, kinds: seq<LineKind>, i: nat, n: nat)
    requires |kinds| == |lines| && i <= |lines|
    ensures |MarkerLines(lines, kinds, i)| == |Scan(lines, kinds, i)|
    ensures n < |Scan(lines, kinds, i)| ==>
      !kinds[MarkerLines(lines, kinds, i)[n]].Plain?
      && Scan(lines, kinds, i)[n] == ActionAt(lines, kinds, MarkerLines(lines, kinds, i)[n])
    decreases |lines| - i
  {
    if i < |lines| {
      if !kinds[i].Plain? {
        MarkerLinesMatch(lines, kinds, After(lines, kinds, i), if n == 0 then 0 else n - 1);
      } else {
        MarkerLinesMatch(lines, kinds, i + 1, n);
      }
    }
  }

  /** The actions follow the order of their marker lines. */
  lemma {:induction false} MarkerOrder(lines: seq<string>, kinds: seq<LineKind>, i: nat)
    requires |kinds| == |lines| && i <= |lines|
    ensures forall m, n :: 0 <= m < n < |MarkerLines(lines, kinds, i)| ==>
      MarkerLines(lines, kinds, i)[m] < MarkerLines(lines, kinds, i)[n]
    decreases |lines| - i
  {
    if i < |lines| {
      if !kinds[i].Plain? {
        MarkerOrder(lines, kinds, After(lines, kinds, i));
      } else {
        MarkerOrder(lines, kinds, i + 1);
      }
    }
  }

  /** `parse_and_execute_actions`, without running the actions. */
  function MarkerActions(response: string): seq<Action>
  {
    var lines := Text.Split(response, '\n');
    Scan(lines, KindsOf(lines), 0)
  }

  /** The inner loop of `parse_and_execute_actions`: a file's content lines. */
  method ReadContent(lines: seq<string>, start: nat) returns (contentLines: seq<string>, k: nat)
    requires start <= |lines|
    ensures k == ContentEnd(lines, start) && contentLines == lines[start..k]
  {
    contentLines := [];
    k := start;
    while k < |lines| && !StartsBracket(lines[k])
      invariant start <= k <= |lines|
      invariant contentLines == lines[start..k]
      invariant ContentEnd(lines, start) == ContentEnd(lines, k)
      decreases |lines| - k
    {
      contentLines := contentLines + [lines[k]];
      k := k + 1;
    }
  }

  /** The scan past one line: a marker line adds its action and moves past its content. */
  lemma ScanStep(lines: seq<string>, kinds: seq<LineKind>, i: nat, actions: seq<Action>)
    requires |kinds| == |lines| && i < |lines|
    ensures kinds[i].Plain? ==> actions + Scan(lines, kinds, i) == actions + Scan(lines, kinds, i + 1)
    ensures !kinds[i].Plain? ==>
      actions + Scan(lines, kinds, i) == (actions + [ActionAt(lines, kinds, i)]) + Scan(lines, kinds, After(lines, kinds, i))
  {
  }

  method ParseActions(response: string) returns (actions: seq<Action>)
    ensures actions == MarkerActions(response)
  {
    var lines := Text.Split(response, '\n');
    ghost var kinds := KindsOf(lines);
    actions := [];
    var i: int := 0;
    while i < |lines|
      invariant 0 <= i <= |lines|
      invariant actions + Scan(lines, kinds, i) == Scan(lines, kinds, 0)
      decreases |lines| - i
    {
      ScanStep(lines, kinds, i, actions);
      assert kinds[i] == KindOf(lines[i]);
      match KindOf(lines[i]) {
        case ExecuteLine(command) =>
          assert ActionAt(lines, kinds, i) == Execute(command) && After(lines, kinds, i) == i + 1;
          actions := actions + [Execute(command)];
          i := i + 1;
        case CreateFileLine(filepath) =>
          var contentLines, k := ReadContent(lines, i + 1);
          assert ActionAt(lines, kinds, i) == CreateFile(filepath, Text.Join(contentLines, "\n")) && After(lines, kinds, i) == k;
          actions := actions + [CreateFile(filepath, Text.Join(contentLines, "\n"))];
          i := k;
        case Plain =>
          i := i + 1;
      }
    }
    assert actions + [] == actions;
  }

  /** The command of each `[EXECUTE]:` line, in order. */
  function Commands(kinds: seq<LineKind>): seq<Action>
  {
    if |kinds| == 0 then []
    else (match kinds[0] case ExecuteLine(c) => [Execute(c)] case _ => []) + Commands(kinds[1..])
  }

  /**
   * Without `[CREATE_FILE]:` markers, every stripped line starting with
   * `[EXECUTE]:` gives one command, the rest of the line stripped, in order.
   */
  lemma {:induction false} CommandsOnly(lines: seq<string>, kinds: seq<LineKind>, i: nat)
    requires |kinds| == |lines| && i <= |lines|
    requires forall j :: 0 <= j < |lines| ==> !kinds[j].CreateFileLine?
    ensures Scan(lines, kinds, i) == Commands(kinds[i..])
    decreases |lines| - i
  {
    if i < |lines| {
      CommandsOnly(lines, kinds, i + 1);
      assert kinds[i..][1..] == kinds[i + 1..];
    }
  }

  /** A file's content is the run of lines after its marker up to the first raw line starting with '['. */
  lemma FileContentLines(lines: seq<string>, kinds: seq<LineKind>, j: nat)
    requires |kinds| == |lines| && j < |lines| && kinds[j].CreateFileLine?
    requires forall m :: 0 <= m < |lines| ==> '\n' !in lines[m]
    ensures var k := ContentEnd(lines, j + 1);
      ActionAt(lines, kinds, j).CreateFile?
      && (k > j + 1 ==> Text.Split(ActionAt(lines, kinds, j).content, '\n') == lines[j + 1..k])
      && (forall m :: j < m < k ==> !StartsBracket(lines[m]))
      && (k < |lines| ==> StartsBracket(lines[k]))
  {
    var k := ContentEnd(lines, j + 1);
    if k > j + 1 {
      Text.SplitJoin(lines[j + 1..k], '\n');
    }
  }

  lemma FileMarkerKind(name: string)
    requires |name| > 0 && !Text.IsSpace(name[0]) && !Text.IsSpace(name[|name| - 1])
    ensures KindOf(CreateFileMarker + " " + name) == CreateFileLine(name)
  {
    var line := CreateFileMarker + " " + name;
    Text.StripTrimmed(line);
    assert line[..|ExecuteMarker|] != ExecuteMarker by {
      assert line[1] == 'C';
    }
    assert line[..|CreateFileMarker|] == CreateFileMarker;
    assert line[|CreateFileMarker|..] == " " + name;
    Text.StripLeadingSpace(name);
  }

  lemma PlainBracketLine()
    ensures KindOf("[1, 2]") == Plain
  {
    var line := "[1, 2]";
    Text.StripTrimmed(line);
    assert line[1] == '1';
  }

  /** A file marker followed by two lines that do not start with '[' takes both as content. */
  lemma ScanSwallows(lines: seq<string>, kinds: seq<LineKind>, name: string)
    requires |lines| == |kinds| == 3 && kinds[0] == CreateFileLine(name)
    requires !StartsBracket(lines[1]) && !StartsBracket(lines[2])
    ensures Scan(lines, kinds, 0) == [CreateFile(name, lines[1] + "\n" + lines[2])]
  {
    assert ContentEnd(lines, 1) == 3;
    assert lines[1..3] == [lines[1], lines[2]];
    assert [lines[1], lines[2]][1..] == [lines[2]];
    assert Text.Join([lines[1], lines[2]], "\n") == lines[1] + "\n" + lines[2];
    assert ActionAt(lines, kinds, 0) == CreateFile(name, lines[1] + "\n" + lines[2]);
    assert After(lines, kinds, 0) == 3;
    assert Scan(lines, kinds, 3) == [];
  }

  /** A file marker, one content line, then a plain line starting with '[': that line is dropped. */
  lemma ScanDrops(lines: seq<string>, kinds: seq<LineKind>, name: string)
    requires |lines| == |kinds| == 3 && kinds[0] == CreateFileLine(name) && kinds[2] == Plain
    requires !StartsBracket(lines[1]) && StartsBracket(lines[2])
    ensures Scan(lines, kinds, 0) == [CreateFile(name, lines[1])]
  {
    assert ContentEnd(lines, 1) == 2;
    assert lines[1..2] == [lines[1]];
    assert Scan(lines, kinds, 3) == [];
    assert Scan(lines, kinds, 2) == [];
  }

  /** An indented marker inside a file's content does not end it: it is swallowed as content. */
  lemma IndentedMarkerIsContent()
    ensures var indented := "  " + ExecuteMarker + " ls";
      var lines := [CreateFileMarker + " " + "a.txt", "hello", indented];
      Scan(lines, KindsOf(lines), 0) == [CreateFile("a.txt", "hello" + "\n" + indented)]
  {
    var indented := "  " + ExecuteMarker + " ls";
    var lines := [CreateFileMarker + " " + "a.txt", "hello", indented];
    FileMarkerKind("a.txt");
    ScanSwallows(lines, KindsOf(lines), "a.txt");
  }

  /** A content line starting with '[' ends the file and, being no marker, is dropped. */
  lemma BracketLineIsDropped()
    ensures var lines := [CreateFileMarker + " " + "a.py", "x = 1", "[1, 2]"];
      Scan(lines, KindsOf(lines), 0) == [CreateFile("a.py", "x = 1")]
  {
    var lines := [CreateFileMarker + " " + "a.py", "x = 1", "[1, 2]"];
    FileMarkerKind("a.py");
    PlainBracketLine();
    ScanDrops(lines, KindsOf(lines), "a.py");
  }

  // ---- WarpMCPIntegration.format_poe_response ----

  /** The loop state: blocks emitted, pending code and text lines, and whether a fence is open. */
  datatype FenceState = FenceState(blocks: seq<WarpBlock>, code: seq<string>, text: seq<string>, inCode: bool)

  const NoFence := FenceState([], [], [], false)

  predicate IsFence(line: string)
  {
    "```" <= line
  }

  /** `create_code_block` with its defaults: language "python", no line numbers. */
  function PythonBlock(code: seq<string>): WarpBlock
  {
    CreateCodeBlock(Text.Join(code, "\n"), "python", false)
  }

  function TextBlockOf(text: seq<string>): WarpBlock
  {
    CreateTextBlock(Text.Join(text, "\n"))
  }

  /** One line of `format_poe_response`. */
  function FenceStep(st: FenceState, line: string): FenceState
  {
    if IsFence(line) then
      if st.inCode then
        if |st.code| > 0 then FenceState(st.blocks + [PythonBlock(st.code)], [], st.text, false)
        else st.(inCode := false)
      else
        if |st.text| > 0 then FenceState(st.blocks + [TextBlockOf(st.text)], st.code, [], true)
        else st.(inCode := true)
    else if st.inCode then st.(code := st.code + [line])
    else st.(text := st.text + [line])
  }

  function FenceFold(st: FenceState, lines: seq<string>): FenceState
  {
    if |lines| == 0 then st else FenceStep(FenceFold(st, lines[..|lines| - 1]), lines[|lines| - 1])
  }

  lemma FenceFoldSnoc(lines: seq<string>, i: nat)
    requires i < |lines|
    ensures FenceFold(NoFence, lines[..i + 1]) == FenceStep(FenceFold(NoFence, lines[..i]), lines[i])
  {
    assert lines[..i + 1][..i] == lines[..i];
  }

  /** The blocks after the last line: pending text, then pending code. */
  function Flushed(st: FenceState): seq<WarpBlock>
  {
    st.blocks + (if |st.text| > 0 then [TextBlockOf(st.text)] else [])
    + (if |st.code| > 0 then [PythonBlock(st.code)] else [])
  }

  function PoeBlocks(response: string): seq<WarpBlock>
  {
    Flushed(FenceFold(NoFence, Text.Split(response, '\n')))
  }

  lemma DictsSnoc(blocks: seq<WarpBlock>, b: WarpBlock)
    ensures Dicts(blocks + [b]) == Dicts(blocks) + [Json.Obj(ToDict(b))]
  {
    DictsAppend(blocks, [b]);
  }

  /** Appends one block's dict. */
  method Emit(blocks: seq<Json.Value>, ghost emitted: seq<WarpBlock>, b: WarpBlock) returns (r: seq<Json.Value>)
    requires blocks == Dicts(emitted)
    ensures r == Dicts(emitted + [b])
  {
    DictsSnoc(emitted, b);
    r := blocks + [Json.Obj(ToDict(b))];
  }

  /** The loop of `format_poe_response`: the blocks closed by fences, and what is still pending. */
  method ScanFences(lines: seq<string>) returns (blocks: seq<Json.Value>, currentCode: seq<string>, currentText: seq<string>,
                                                   ghost emitted: seq<WarpBlock>)
    ensures var st := FenceFold(NoFence, lines);
      emitted == st.blocks && currentCode == st.code && currentText == st.text && blocks == Dicts(emitted)
  {
    blocks := [];
    currentCode := [];
    currentText := [];
    var inCodeBlock := false;
    emitted := [];
    var i := 0;
    while i < |lines|
      invariant 0 <= i <= |lines|
      invariant FenceFold(NoFence, lines[..i]) == FenceState(emitted, currentCode, currentText, inCodeBlock)
      invariant blocks == Dicts(emitted)
    {
      var line := lines[i];
      FenceFoldSnoc(lines, i);
      if "```" <= line {
        if inCodeBlock {
          if |currentCode| > 0 {
            var b := CreateCodeBlock(Text.Join(currentCode, "\n"), "python", false);
            blocks := Emit(blocks, emitted, b);
            emitted := emitted + [b];
            currentCode := [];
          }
          inCodeBlock := false;
        } else {
          if |currentText| > 0 {
            var b := CreateTextBlock(Text.Join(currentText, "\n"));
            blocks := Emit(blocks, emitted, b);
            emitted := emitted + [b];
            currentText := [];
          }
          inCodeBlock := true;
        }
      } else if inCodeBlock {
        currentCode := currentCode + [line];
      } else {
        currentText := currentText + [line];
      }
      i := i + 1;
    }
    assert lines[..i] == lines;
  }

  /**
   * `format_poe_response`: the blocks of `PoeBlocks`, as dicts. Text
   * outside fences becomes text blocks and fenced text Python code blocks,
   * in order, with the pending text flushed before the pending code.
   */
  method FormatPoeResponse(response: string) returns (blocks: seq<Json.Value>)
    ensures blocks == Dicts(PoeBlocks(response))
  {
    var lines := Text.Split(response, '\n');
    var currentCode, currentText;
    ghost var emitted;
    blocks, currentCode, currentText, emitted := ScanFences(lines);
    ghost var flushed := emitted;
    if |currentText| > 0 {
      var b := CreateTextBlock(Text.Join(currentText, "\n"));
      blocks := Emit(blocks, flushed, b);
      flushed := flushed + [b];
    }
    if |currentCode| > 0 {
      var b := CreateCodeBlock(Text.Join(currentCode, "\n"), "python", false);
      blocks := Emit(blocks, flushed, b);
      flushed := flushed + [b];
    }
    assert flushed == Flushed(FenceFold(NoFence, lines));
  }

  /** The lines of every block's text, block after block. */
  function BlockLines(blocks: seq<WarpBlock>): seq<string>
  {
    if |blocks| == 0 then []
    else BlockLines(blocks[..|blocks| - 1]) + Text.Split(blocks[|blocks| - 1].text.UnwrapOr(""), '\n')
  }

  /** The lines that are not fences, in order. */
  function NonFence(lines: seq<string>): seq<string>
  {
    if |lines| == 0 then []
    else NonFence(lines[..|lines| - 1]) + (if IsFence(lines[|lines| - 1]) then [] else [lines[|lines| - 1]])
  }

  predicate NoNewline(lines: seq<string>)
  {
    forall k :: 0 <= k < |lines| ==> '\n' !in lines[k]
  }

  predicate NoFenceIn(lines: seq<string>)
  {
    forall k :: 0 <= k < |lines| ==> !IsFence(lines[k])
  }

  lemma {:induction false} NonFenceHasNoFence(lines: seq<string>)
    ensures NoFenceIn(NonFence(lines))
  {
    if |lines| > 0 {
      NonFenceHasNoFence(lines[..|lines| - 1]);
    }
  }

  predicate IsTextOrPython(b: WarpBlock)
  {
    b.kind == TEXT || (b.kind == CODE && b.meta == Some([("language", Json.Str("python")), ("line_numbers", Json.Bool(false))]))
  }

  /** Every block is a text block or a code block labelled "python". */
  predicate TextOrPython(blocks: seq<WarpBlock>)
  {
    forall k :: 0 <= k < |blocks| ==> IsTextOrPython(blocks[k])
  }

  /** What each step of `format_poe_response` keeps true of its state. */
  predicate FenceInvariant(st: FenceState, lines: seq<string>)
  {
    BlockLines(st.blocks) + st.text + st.code == NonFence(lines)
    && (st.inCode ==> st.text == []) && (!st.inCode ==> st.code == [])
    && TextOrPython(st.blocks) && NoNewline(st.text) && NoNewline(st.code)
  }

  lemma BlockLinesAppendText(blocks: seq<WarpBlock>, lines: seq<string>)
    requires |lines| >= 1 && NoNewline(lines)
    ensures BlockLines(blocks + [TextBlockOf(lines)]) == BlockLines(blocks) + lines
  {
    assert (blocks + [TextBlockOf(lines)])[..|blocks|] == blocks;
    Text.SplitJoin(lines, '\n');
  }

  lemma BlockLinesAppendCode(blocks: seq<WarpBlock>, lines: seq<string>)
    requires |lines| >= 1 && NoNewline(lines)
    ensures BlockLines(blocks + [PythonBlock(lines)]) == BlockLines(blocks) + lines
  {
    assert (blocks + [PythonBlock(lines)])[..|blocks|] == blocks;
    Text.SplitJoin(lines, '\n');
  }

  lemma NonFenceSnoc(prefix: seq<string>, line: string)
    ensures NonFence(prefix + [line]) == NonFence(prefix) + (if IsFence(line) then [] else [line])
  {
    assert (prefix + [line])[..|prefix|] == prefix;
  }

  lemma TextOrPythonSnoc(blocks: seq<WarpBlock>, b: WarpBlock)
    requires TextOrPython(blocks) && IsTextOrPython(b)
    ensures TextOrPython(blocks + [b])
  {
  }

  lemma NoNewlineSnoc(lines: seq<string>, line: string)
    requires NoNewline(lines) && '\n' !in line
    ensures NoNewline(lines + [line])
  {
  }

  /** A closing fence moves the pending code into a python block. */
  lemma FenceStepCloses(st: FenceState, prefix: seq<string>, line: string)
    requires FenceInvariant(st, prefix) && IsFence(line) && st.inCode
    ensures FenceInvariant(FenceStep(st, line), prefix + [line])
  {
    NonFenceSnoc(prefix, line);
    if |st.code| > 0 {
      BlockLinesAppendCode(st.blocks, st.code);
      TextOrPythonSnoc(st.blocks, PythonBlock(st.code));
    }
  }

  /** An opening fence moves the pending text into a text block. */
  lemma FenceStepOpens(st: FenceState, prefix: seq<string>, line: string)
    requires FenceInvariant(st, prefix) && IsFence(line) && !st.inCode
    ensures FenceInvariant(FenceStep(st, line), prefix + [line])
  {
    NonFenceSnoc(prefix, line);
    if |st.text| > 0 {
      BlockLinesAppendText(st.blocks, st.text);
      TextOrPythonSnoc(st.blocks, TextBlockOf(st.text));
    }
  }

  /** Any other line joins the pending code or text. */
  lemma FenceStepKeeps(st: FenceState, prefix: seq<string>, line: string)
    requires FenceInvariant(st, prefix) && !IsFence(line) && '\n' !in line
    ensures FenceInvariant(FenceStep(st, line), prefix + [line])
  {
    NonFenceSnoc(prefix, line);
    if st.inCode {
      NoNewlineSnoc(st.code, line);
    } else {
      NoNewlineSnoc(st.text, line);
    }
  }

  lemma {:induction false} FenceFoldInvariant(lines: seq<string>)
    requires NoNewline(lines)
    ensures FenceInvariant(FenceFold(NoFence, lines), lines)
  {
    if |lines| > 0 {
      var prefix, line := lines[..|lines| - 1], lines[|lines| - 1];
      assert lines == prefix + [line];
      FenceFoldInvariant(prefix);
      var st := FenceFold(NoFence, prefix);
      if !IsFence(line) {
        FenceStepKeeps(st, prefix, line);
      } else if st.inCode {
        FenceStepCloses(st, prefix, line);
      } else {
        FenceStepOpens(st, prefix, line);
      }
    }
  }

  /** Flushing the pending text and code at the end keeps every line. */
  lemma FlushedLines(st: FenceState, lines: seq<string>)
    requires FenceInvariant(st, lines)
    ensures BlockLines(Flushed(st)) == NonFence(lines) && TextOrPython(Flushed(st))
  {
    if |st.text| > 0 {
      assert st.code == [] && Flushed(st) == st.blocks + [TextBlockOf(st.text)];
      BlockLinesAppendText(st.blocks, st.text);
      TextOrPythonSnoc(st.blocks, TextBlockOf(st.text));
    } else if |st.code| > 0 {
      assert Flushed(st) == st.blocks + [PythonBlock(st.code)];
      BlockLinesAppendCode(st.blocks, st.code);
      TextOrPythonSnoc(st.blocks, PythonBlock(st.code));
    } else {
      assert Flushed(st) == st.blocks;
    }
  }

  /**
   * `format_poe_response` keeps every line that is not a fence, in order:
   * the blocks' lines, read in block order, are exactly those lines, so no
   * fence line appears in any block; every block is text or python code.
   */
  lemma PoeBlockLines(response: string)
    ensures BlockLines(PoeBlocks(response)) == NonFence(Text.Split(response, '\n'))
    ensures NoFenceIn(BlockLines(PoeBlocks(response)))
    ensures TextOrPython(PoeBlocks(response))
  {
    var lines := Text.Split(response, '\n');
    Text.SplitPiecesLackSeparator(response, '\n');
    FenceFoldInvariant(lines);
    FlushedLines(FenceFold(NoFence, lines), lines);
    NonFenceHasNoFence(lines);
  }
}
