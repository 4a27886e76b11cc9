/** A plan step's inputs: literals and bindings, how a binding is read and written back. */
module PlanInput {
  import opened Basics
  import opened Text

  /** What a parsed binding names. */
  datatype Source = FromStep(step: string, key: string) | FromWorld(path: seq<string>)

  /** Exactly one of the two is set in what a plan writes. */
  datatype StepInput = StepInput(literal: string, source: string)

  predicate IsBinding(input: StepInput) {
    Trim(input.source) != ""
  }

  const STEP_PREFIX := "step:"
  const WORLD_PREFIX := "world_model:"
  const ROOT := "asset"
  const OUTPUT_MARK := ".output."

  predicate IsAlnum(c: char) {
    'A' <= c <= 'Z' || 'a' <= c <= 'z' || '0' <= c <= '9'
  }

  /** What a step may be called. */
  predicate ValidName(name: string) {
    name != "" && IsAlnum(name[0]) && forall i | 0 < i < |name| :: IsAlnum(name[i]) || name[i] == '_' || name[i] == '-'
  }

  predicate ValidKey(key: string) {
    key != "" && !ContainsAny(key, ". \t")
  }

  function ParseInputSource(raw: string): Result<Source> {
    var s := Trim(raw);
    if HasPrefix(s, STEP_PREFIX) then ParseStep(s[|STEP_PREFIX|..])
    else if HasPrefix(s, WORLD_PREFIX) then ParseWorld(s[|WORLD_PREFIX|..])
    else Err
  }

  function ParseStep(rest: string): Result<Source> {
    var i := Index(rest, OUTPUT_MARK);
    if i <= 0 then Err
    else
      var name, key := rest[..i], rest[i + |OUTPUT_MARK|..];
      if ValidName(name) && ValidKey(key) then Ok(FromStep(name, key)) else Err
  }

  function ParseWorld(rest: string): Result<Source> {
    var path := Split(rest, '.');
    if |path| < 3 || path[0] != ROOT then Err
    else if AssetId(path) == "" || !IsField(WorldField(path)) then Err
    else Ok(FromWorld(path))
  }

  predicate IsField(field: string) {
    field == "state" || field == "kind"
  }

  /** The asset a world path names: everything between its root and its field, dots included. */
  function AssetId(path: seq<string>): string
    requires |path| >= 2
  {
    Join(path[1..|path| - 1], '.')
  }

  function WorldField(path: seq<string>): string
    requires path != []
  {
    path[|path| - 1]
  }

  function Print(src: Source): string {
    match src
    case FromStep(step, key) => STEP_PREFIX + step + OUTPUT_MARK + key
    case FromWorld(path) => WORLD_PREFIX + Join(path, '.')
  }

  function PrintWorld(id: string, field: string): string {
    WORLD_PREFIX + ROOT + ['.'] + id + ['.'] + field
  }

  // ---- round trips -----------------------------------------------------------------

  lemma StepPrintsBack(rest: string)
    requires ParseStep(rest).Ok?
    ensures var src := ParseStep(rest).value; src.FromStep? && rest == src.step + OUTPUT_MARK + src.key
  {
    var i := Index(rest, OUTPUT_MARK);
    assert rest == rest[..i] + rest[i..i + |OUTPUT_MARK|] + rest[i + |OUTPUT_MARK|..];
  }

  lemma AfterPrefix(s: string, p: string)
    requires HasPrefix(s, p)
    ensures s == p + s[|p|..]
  {
  }

  lemma StepIsPrinted(s: string)
    requires HasPrefix(s, STEP_PREFIX) && ParseStep(s[|STEP_PREFIX|..]).Ok?
    ensures Print(ParseStep(s[|STEP_PREFIX|..]).value) == s
  {
    var rest := s[|STEP_PREFIX|..];
    StepPrintsBack(rest);
    AfterPrefix(s, STEP_PREFIX);
    var src := ParseStep(rest).value;
    assert STEP_PREFIX + (src.step + OUTPUT_MARK + src.key) == STEP_PREFIX + src.step + OUTPUT_MARK + src.key;
  }

  lemma WorldIsPrinted(s: string)
    requires HasPrefix(s, WORLD_PREFIX) && ParseWorld(s[|WORLD_PREFIX|..]).Ok?
    ensures Print(ParseWorld(s[|WORLD_PREFIX|..]).value) == s
  {
    JoinSplit(s[|WORLD_PREFIX|..], '.');
    AfterPrefix(s, WORLD_PREFIX);
  }

  /** Whatever is accepted prints back as it was written, white space at the ends aside. */
  lemma AcceptedPrintsBack(raw: string)
    requires ParseInputSource(raw).Ok?
    ensures Print(ParseInputSource(raw).value) == Trim(raw)
  {
    if HasPrefix(Trim(raw), STEP_PREFIX) {
      StepIsPrinted(Trim(raw));
    } else {
      WorldIsPrinted(Trim(raw));
    }
  }

  lemma ValidNameHasNoDot(name: string)
    requires ValidName(name)
    ensures '.' !in name
  {
  }

  lemma FirstMark(name: string, key: string)
    requires '.' !in name
    ensures Index(name + OUTPUT_MARK + key, OUTPUT_MARK) == |name|
  {
    var rest := name + OUTPUT_MARK + key;
    assert rest[|name|..|name| + |OUTPUT_MARK|] == OUTPUT_MARK;
    forall j: nat | OccursAt(rest, OUTPUT_MARK, j) ensures |name| <= j {
      assert rest[j] == rest[j..j + |OUTPUT_MARK|][0];
    }
    assert OccursAt(rest, OUTPUT_MARK, |name|);
  }

  /** A step binding is read back as the pair it was printed from exactly when a step may be called
      that, and the key is one the format can carry. */
  lemma StepRoundTrip(step: string, key: string)
    ensures ParseInputSource(Print(FromStep(step, key))) == Ok(FromStep(step, key)) <==>
            ValidName(step) && ValidKey(key) && !IsSpace(key[|key| - 1])
  {
    var s := Print(FromStep(step, key));
    if ValidName(step) && ValidKey(key) && !IsSpace(key[|key| - 1]) {
      ReadsBack(step, key);
    }
    if ParseInputSource(s) == Ok(FromStep(step, key)) {
      AcceptedPrintsBack(s);
      ParsedIsValid(s);
      PrintStep(step, key);
      Prefixed(STEP_PREFIX, step + OUTPUT_MARK + key);
      Between(step, OUTPUT_MARK, key);
    }
  }

  lemma ParsedIsValid(raw: string)
    requires ParseInputSource(raw).Ok? && ParseInputSource(raw).value.FromStep?
    ensures ValidName(ParseInputSource(raw).value.step) && ValidKey(ParseInputSource(raw).value.key)
  {
  }

  lemma ReadAsStep(s: string, rest: string)
    requires IsTrimmed(s) && HasPrefix(s, STEP_PREFIX) && s[|STEP_PREFIX|..] == rest
    ensures ParseInputSource(s) == ParseStep(rest)
  {
  }

  lemma ReadAsWorld(s: string, rest: string)
    requires IsTrimmed(s) && HasPrefix(s, WORLD_PREFIX) && s[|WORLD_PREFIX|..] == rest
    ensures ParseInputSource(s) == ParseWorld(rest)
  {
    assert s[0] == WORLD_PREFIX[0];
    assert STEP_PREFIX[0] != WORLD_PREFIX[0];
  }

  lemma PrintStep(step: string, key: string)
    ensures Print(FromStep(step, key)) == STEP_PREFIX + (step + OUTPUT_MARK + key)
  {
  }

  lemma ReadsBack(step: string, key: string)
    requires ValidName(step) && ValidKey(key) && !IsSpace(key[|key| - 1])
    ensures ParseInputSource(Print(FromStep(step, key))) == Ok(FromStep(step, key))
  {
    PrintStep(step, key);
    Between(step, OUTPUT_MARK, key);
    Prefixed(STEP_PREFIX, step + OUTPUT_MARK + key);
    assert STEP_PREFIX[0] == 's';
    ReadAsStep(STEP_PREFIX + (step + OUTPUT_MARK + key), step + OUTPUT_MARK + key);
    StepParses(step, key);
  }

  lemma StepParses(step: string, key: string)
    requires ValidName(step) && ValidKey(key)
    ensures ParseStep(step + OUTPUT_MARK + key) == Ok(FromStep(step, key))
  {
    Between(step, OUTPUT_MARK, key);
    ValidNameHasNoDot(step);
    FirstMark(step, key);
  }

  /** An asset id comes back whole, whatever dots or blanks it has, unless it is empty. */
  lemma WorldRoundTrip(id: string, field: string)
    requires IsField(field)
    ensures var parsed := ParseInputSource(PrintWorld(id, field));
            if id == "" then parsed.Err? else parsed.Ok? && NamesAsset(parsed.value, id, field)
  {
    var rest := ROOT + ['.'] + (id + ['.'] + field);
    PrintOfWorld(id, field);
    Between(ROOT, ['.'], id + ['.'] + field);
    Between(id, ['.'], field);
    Prefixed(WORLD_PREFIX, rest);
    assert WORLD_PREFIX[0] == 'w';
    ReadAsWorld(WORLD_PREFIX + rest, rest);
    WorldPath(id, field);
  }

  predicate NamesAsset(src: Source, id: string, field: string) {
    src.FromWorld? && |src.path| >= 2 && AssetId(src.path) == id && WorldField(src.path) == field
  }

  lemma WorldPath(id: string, field: string)
    requires IsField(field)
    ensures var parsed := ParseWorld(ROOT + ['.'] + (id + ['.'] + field));
            if id == "" then parsed.Err? else parsed.Ok? && NamesAsset(parsed.value, id, field)
  {
    SplitThree(ROOT, id, field, '.');
  }

  lemma PrintOfWorld(id: string, field: string)
    ensures PrintWorld(id, field) == WORLD_PREFIX + (ROOT + ['.'] + (id + ['.'] + field))
  {
  }

  /** Two names and keys the format accepts never print alike: a binding names one output. */
  lemma StepBindingIsUnambiguous(step: string, key: string, step': string, key': string)
    requires ValidName(step) && ValidName(step')
    requires Print(FromStep(step, key)) == Print(FromStep(step', key'))
    ensures step == step' && key == key'
  {
    var s := Print(FromStep(step, key));
    assert s[|STEP_PREFIX|..] == step + OUTPUT_MARK + key == step' + OUTPUT_MARK + key';
    ValidNameHasNoDot(step);
    ValidNameHasNoDot(step');
    FirstMark(step, key);
    FirstMark(step', key');
    assert (step + OUTPUT_MARK + key)[..|step|] == step && (step' + OUTPUT_MARK + key')[..|step'|] == step';
    assert (step + OUTPUT_MARK + key)[|step| + |OUTPUT_MARK|..] == key;
    assert (step' + OUTPUT_MARK + key')[|step'| + |OUTPUT_MARK|..] == key';
  }

  // ---- the JSON form ----------------------------------------------------------------

  /** A parsed JSON value; a number keeps its text, an array what it encodes to. */
  datatype Value =
    | JNull
    | JBool(b: bool)
    | JNumber(text: string)
    | JString(s: string)
    | JArray(text: string)
    | JObject(fields: map<string, Value>, text: string)

  function SetLiteral(v: Value): StepInput {
    match v
    case JNull => StepInput("", "")
    case JBool(b) => StepInput(if b then "true" else "false", "")
    case JNumber(text) => StepInput(text, "")
    case JString(s) => StepInput(s, "")
    case JArray(text) => StepInput(text, "")
    case JObject(_, text) => StepInput(text, "")
  }

  function Unmarshal(v: Value): Result<StepInput> {
    if v.JObject? then FromObject(v.fields) else Ok(SetLiteral(v))
  }

  /** An object is a binding or a literal under "value"; anything else is refused. */
  function FromObject(fields: map<string, Value>): Result<StepInput> {
    if "source" !in fields then
      if "value" in fields then Ok(SetLiteral(fields["value"])) else Err
    else if !fields["source"].JString? then Err
    else if Trim(fields["source"].s) == "" then Err
    else Ok(StepInput("", Trim(fields["source"].s)))
  }

  function Marshal(input: StepInput): Value {
    if IsBinding(input) then JObject(map["source" := JString(input.source)], "") else JString(input.literal)
  }

  /** What a literal means to the capability it is for: the text of what was written - a string's own text,
      a truth value's word, nothing for null - under "value" or plain alike. */
  lemma LiteralIsItsText(v: Value)
    requires !v.JObject? && Unmarshal(v).Ok?
    ensures var input := Unmarshal(v).value;
            && input.source == ""
            && (v.JString? ==> input.literal == v.s)
            && (v.JNumber? || v.JArray? ==> input.literal == v.text)
            && (v.JBool? ==> input.literal == "true" || input.literal == "false")
            && (v.JBool? ==> (input.literal == "true" <==> v.b))
            && (v.JNull? ==> input.literal == "")
    ensures forall text :: Unmarshal(JObject(map["value" := v], text)) == Unmarshal(v)
  {
  }

  /** What a plan may not write: an object without a source or a value, and a source that is no text or blank. */
  lemma RefusedExactly(v: Value)
    ensures Unmarshal(v).Err? <==>
            v.JObject? &&
            if "source" in v.fields then !v.fields["source"].JString? || Trim(v.fields["source"].s) == ""
            else "value" !in v.fields
    ensures Unmarshal(v).Ok? && v.JObject? && "source" in v.fields ==>
              Unmarshal(v).value == StepInput("", Trim(v.fields["source"].s))
    ensures v.JObject? && "source" !in v.fields && "value" in v.fields && v.fields["value"].JObject? ==>
              Unmarshal(v) == Ok(StepInput(v.fields["value"].text, ""))
  {
  }

  /** An input is what its JSON form reads back as exactly when it is a trimmed binding or a literal. */
  lemma MarshalRoundTrip(input: StepInput)
    ensures Unmarshal(Marshal(input)) == Ok(input) <==>
            if IsBinding(input) then input.literal == "" && IsTrimmed(input.source) else input.source == ""
  {
    if IsBinding(input) {
      assert Unmarshal(Marshal(input)) == Ok(StepInput("", Trim(input.source)));
    }
  }

  /** Whatever a plan may write is stored in a form that means the same, and is stable from then on. */
  lemma StoredInputIsStable(v: Value)
    requires Unmarshal(v).Ok?
    ensures Unmarshal(Marshal(Unmarshal(v).value)) == Unmarshal(v)
    ensures IsBinding(Unmarshal(v).value) <==> v.JObject? && "source" in v.fields
  {
    var input := Unmarshal(v).value;
    if !(v.JObject? && "source" in v.fields) {
      assert input.source == "" && Trim("") == "";
    }
    MarshalRoundTrip(input);
  }
}
