/** The validating models of metaclass/validation/model.py.

    A model class declares annotated attributes, in order, each with a type.
    Calling the class (`BaseMeta.__call__`) builds an instance and then, field
    by field in declaration order, checks that the keyword is present, that
    the value's type is exactly the annotated type, and that a field value
    passes its own `validate()`; the first failing check raises, otherwise the
    value is set on the instance. Positional arguments reach `__init__`, which
    ignores them. The repr injected by `BaseMeta.__new__` lists the instance's
    attributes in insertion order. */
module ValidationModel {
  import opened ValidationFields
  import opened Wrappers

  /** A runtime type, compared by identity (`type(x) is v`). `UrlType` and
      `OtherFieldType` are subclasses of `BaseField`; the others are not. */
  datatype TypeTag =
    | IntType | FloatType | StrType | OtherType(name: string)
    | UrlType | OtherFieldType(name: string)
  {
    /** `issubclass(t, BaseField)`. */
    predicate IsField() {
      this.UrlType? || this.OtherFieldType?
    }
  }

  /** The types whose values are not fields. */
  type PlainType = t: TypeTag | !t.IsField() witness IntType

  /** A keyword argument: a plain value of some non-field type with its
      printed form, or an instance of a `BaseField` subclass. */
  datatype Value =
    | Plain(ty: PlainType, text: string)
    | FieldValue(field: Field)
  {
    /** `type(v)`: a value's type is a field type exactly when the value is
        a field, so `validate()` exists exactly for values of field types. */
    function TypeOf(): (t: TypeTag)
      ensures t.IsField() <==> this.FieldValue?
      ensures t == UrlType <==> this.FieldValue? && field.UrlField?
    {
      match this
      case Plain(ty, _) => ty
      case FieldValue(UrlField(_)) => UrlType
      case FieldValue(OtherField(name, _, _)) => OtherFieldType(name)
    }

    /** `str(v)`, as the f-string of the repr prints it; a `URL` has no
        `__str__`, so it prints its `__repr__`, the string it was built with. */
    function Str(): (s: string)
      ensures this.FieldValue? && field.UrlField? ==> s == field.u.url
    {
      match this
      case Plain(_, text) => text
      case FieldValue(f) => f.Text()
    }
  }

  datatype ErrorKind = AttributeError | TypeError | ValidationError

  /** The instance's attributes in insertion order, or the error raised and
      the annotated name it was raised for. */
  datatype Outcome =
    | Ok(attrs: seq<(string, Value)>)
    | Err(kind: ErrorKind, name: string)

  /** The three checks on one annotated field, in the order they run: the
      keyword is present, its type is exactly the annotation, and a value of
      a field type passes its own `validate()`. */
  function FieldError(name: string, ty: TypeTag, kwargs: map<string, Value>): (e: Option<ErrorKind>)
    ensures e == None <==>
      name in kwargs && kwargs[name].TypeOf() == ty && (ty.IsField() ==> kwargs[name].field.Validate())
    ensures e == Some(AttributeError) <==> name !in kwargs
    ensures e == Some(TypeError) <==> name in kwargs && kwargs[name].TypeOf() != ty
    ensures e == Some(ValidationError) <==>
      name in kwargs && kwargs[name].TypeOf() == ty && ty.IsField() && !kwargs[name].field.Validate()
  {
    if name !in kwargs then Some(AttributeError)
    else if kwargs[name].TypeOf() != ty then Some(TypeError)
    else if kwargs[name].TypeOf().IsField() && !kwargs[name].field.Validate() then Some(ValidationError)
    else None
  }

  /** Every value of type `URL` is validated: a keyword of the right type
      passes exactly when it is a `URL` whose string matches the pattern. */
  lemma UrlValuesAreValidated(name: string, kwargs: map<string, Value>)
    requires name in kwargs && kwargs[name].TypeOf() == UrlType
    ensures kwargs[name].FieldValue? && kwargs[name].field.UrlField?
    ensures FieldError(name, UrlType, kwargs) == None <==> kwargs[name].field.u.Validate()
  {
  }

  /** The first `n` annotated fields all pass their checks. */
  predicate PassesUpTo(ann: seq<(string, TypeTag)>, kwargs: map<string, Value>, n: nat)
    requires n <= |ann|
  {
    forall j :: 0 <= j < n ==> FieldError(ann[j].0, ann[j].1, kwargs) == None
  }

  /** Annotation names are the keys of a dictionary: no name twice. */
  predicate DistinctNames(ann: seq<(string, TypeTag)>) {
    forall i, j :: 0 <= i < j < |ann| ==> ann[i].0 != ann[j].0
  }

  /** What calling the class yields, field by field. Construction succeeds
      exactly when every field passes, and then the attributes are the
      annotated names, in order, with the keyword values; otherwise the first
      failing field decides the error. */
  function Instantiate(ann: seq<(string, TypeTag)>, kwargs: map<string, Value>): (r: Outcome)
    ensures r.Ok? <==> PassesUpTo(ann, kwargs, |ann|)
    ensures r.Ok? ==> (|r.attrs| == |ann| &&
      forall j :: 0 <= j < |ann| ==> ann[j].0 in kwargs && r.attrs[j] == (ann[j].0, kwargs[ann[j].0]))
    ensures forall i :: 0 <= i < |ann| && PassesUpTo(ann, kwargs, i) && FieldError(ann[i].0, ann[i].1, kwargs).Some? ==>
      r == Err(FieldError(ann[i].0, ann[i].1, kwargs).value, ann[i].0)
  {
    if |ann| == 0 then Ok([])
    else
      var name := ann[0].0;
      var rest := Instantiate(ann[1..], kwargs);
      assert forall i :: 1 <= i <= |ann| ==> (PassesUpTo(ann, kwargs, i) <==>
        FieldError(name, ann[0].1, kwargs) == None && PassesUpTo(ann[1..], kwargs, i - 1));
      match FieldError(name, ann[0].1, kwargs)
      case Some(e) => Err(e, name)
      case None =>
        match rest
        case Err(e, n) => Err(e, n)
        case Ok(attrs) => Ok([(name, kwargs[name])] + attrs)
  }

  /** A model instance: the class name and `__dict__`, the attributes in the
      order they were first set. */
  class Instance {
    const className: string
    var dict: seq<(string, Value)>

    /** `BaseModel.__init__`: positional and keyword arguments are ignored. */
    constructor (className: string, args: seq<Value>, kwargs: map<string, Value>)
      ensures this.className == className && dict == []
    {
      this.className := className;
      dict := [];
    }

    /** `setattr`: a new name is appended, an existing one keeps its place
        and takes the new value. */
    method SetAttr(name: string, v: Value)
      modifies this
      ensures dict == Assign(old(dict), name, v)
    {
      dict := Assign(dict, name, v);
    }

    /** The `__repr__` that `BaseMeta.__new__` installs. */
    function Show(): (s: string)
      reads this
      ensures HasPrefix(s, className + "(") && s[|s| - 1] == ')'
      ensures dict == [] ==> s == className + "()"
      ensures |dict| == 1 ==> s == className + "(" + Entry(dict[0]) + ")"
    {
      Format(className, dict)
    }
  }

  /** No attribute name twice, as in a dictionary. */
  predicate DistinctKeys(d: seq<(string, Value)>) {
    forall i, j :: 0 <= i < j < |d| ==> d[i].0 != d[j].0
  }

  /** `setattr` on `__dict__`: a new name goes at the end; an existing name
      keeps its place and takes the new value, every other entry stays. */
  function Assign(d: seq<(string, Value)>, name: string, v: Value): (r: seq<(string, Value)>)
    ensures (forall j :: 0 <= j < |d| ==> d[j].0 != name) ==> r == d + [(name, v)]
  {
    if |d| == 0 then [(name, v)]
    else if d[0].0 == name then [(name, v)] + d[1..]
    else [d[0]] + Assign(d[1..], name, v)
  }

  /** On a dictionary, `Assign` keeps the keys distinct, and an existing name
      keeps its place and takes the new value while every other entry stays. */
  lemma AssignInDict(d: seq<(string, Value)>, name: string, v: Value)
    requires DistinctKeys(d)
    ensures DistinctKeys(Assign(d, name, v))
    ensures (exists j :: 0 <= j < |d| && d[j].0 == name) ==>
      |Assign(d, name, v)| == |d| &&
      forall j :: 0 <= j < |d| ==> Assign(d, name, v)[j] == (if d[j].0 == name then (name, v) else d[j])
  {
    if exists j :: 0 <= j < |d| && d[j].0 == name {
      AssignReplaces(d, name, v);
      var r := Assign(d, name, v);
      assert forall j :: 0 <= j < |r| ==> r[j].0 == d[j].0;
    }
  }

  lemma {:induction false} AssignReplaces(d: seq<(string, Value)>, name: string, v: Value)
    requires DistinctKeys(d) && exists j :: 0 <= j < |d| && d[j].0 == name
    ensures |Assign(d, name, v)| == |d|
    ensures forall j :: 0 <= j < |d| ==> Assign(d, name, v)[j] == (if d[j].0 == name then (name, v) else d[j])
  {
    var r := Assign(d, name, v);
    if d[0].0 == name {
      forall j | 0 < j < |d| ensures r[j] == d[j] && d[j].0 != name {
        assert r[j] == d[1..][j - 1];
      }
    } else {
      var j0 :| 0 <= j0 < |d| && d[j0].0 == name;
      assert d[1..][j0 - 1].0 == name;
      var rest := Assign(d[1..], name, v);
      AssignReplaces(d[1..], name, v);
      forall j | 0 < j < |d| ensures r[j] == (if d[j].0 == name then (name, v) else d[j]) {
        assert r[j] == rest[j - 1] && d[j] == d[1..][j - 1];
      }
    }
  }

  /** The result of calling the model class. */
  datatype CallResult = Created(instance: Instance) | Raised(kind: ErrorKind, name: string)

  /** `BaseMeta.__call__`: builds the instance, then checks and sets the
      annotated fields one by one. */
  method Call(className: string, ann: seq<(string, TypeTag)>, args: seq<Value>, kwargs: map<string, Value>)
    returns (r: CallResult)
    requires DistinctNames(ann)
    ensures Instantiate(ann, kwargs).Err? ==>
      r == Raised(Instantiate(ann, kwargs).kind, Instantiate(ann, kwargs).name)
    ensures Instantiate(ann, kwargs).Ok? ==>
      r.Created? && fresh(r.instance) && r.instance.className == className
      && r.instance.dict == Instantiate(ann, kwargs).attrs
  {
    var instance := new Instance(className, args, kwargs);
    var i := 0;
    while i < |ann|
      invariant 0 <= i <= |ann|
      invariant PassesUpTo(ann, kwargs, i)
      invariant |instance.dict| == i
      invariant forall j :: 0 <= j < i ==> ann[j].0 in kwargs && instance.dict[j] == (ann[j].0, kwargs[ann[j].0])
    {
      var name := ann[i].0;
      if name !in kwargs {
        return Raised(AttributeError, name);
      }
      if kwargs[name].TypeOf() != ann[i].1 {
        return Raised(TypeError, name);
      }
      if kwargs[name].TypeOf().IsField() && !kwargs[name].field.Validate() {
        return Raised(ValidationError, name);
      }
      instance.SetAttr(name, kwargs[name]);
      i := i + 1;
    }
    assert instance.dict == Instantiate(ann, kwargs).attrs;
    return Created(instance);
  }

  /** `k = v` for one attribute. */
  function Entry(a: (string, Value)): string {
    a.0 + " = " + a.1.Str()
  }

  /** The entries joined by `", "`. */
  function Join(attrs: seq<(string, Value)>): string {
    if |attrs| == 0 then ""
    else if |attrs| == 1 then Entry(attrs[0])
    else Entry(attrs[0]) + ", " + Join(attrs[1..])
  }

  /** `Name(k1 = v1, k2 = v2, ...)`. */
  function Format(className: string, attrs: seq<(string, Value)>): (s: string)
    ensures HasPrefix(s, className + "(") && |s| > 0 && s[|s| - 1] == ')'
    ensures attrs == [] ==> s == className + "()"
    ensures |attrs| == 1 ==> s == className + "(" + Entry(attrs[0]) + ")"
  {
    var s := className + "(" + Join(attrs) + ")";
    assert s[..|className + "("|] == className + "(";
    s
  }

  /** Setting one more attribute adds one more entry at the end. */
  lemma {:induction false} JoinAppend(attrs: seq<(string, Value)>, a: (string, Value))
    requires |attrs| > 0
    ensures Join(attrs + [a]) == Join(attrs) + ", " + Entry(a)
  {
    if |attrs| == 1 {
      assert (attrs + [a])[1..] == [a];
    } else {
      assert (attrs + [a])[1..] == attrs[1..] + [a];
      JoinAppend(attrs[1..], a);
    }
  }

  /** Keywords are only ever looked up by annotated name: two keyword maps
      that agree on the annotated names give the same outcome, whatever else
      they hold (a misspelt `urk=` is never inspected nor stored). */
  lemma {:induction false} OnlyAnnotatedKeywordsMatter(ann: seq<(string, TypeTag)>, kw1: map<string, Value>, kw2: map<string, Value>)
    requires forall j :: 0 <= j < |ann| ==> (ann[j].0 in kw1 <==> ann[j].0 in kw2)
    requires forall j :: 0 <= j < |ann| && ann[j].0 in kw1 ==> kw1[ann[j].0] == kw2[ann[j].0]
    ensures Instantiate(ann, kw1) == Instantiate(ann, kw2)
  {
    if |ann| > 0 {
      assert FieldError(ann[0].0, ann[0].1, kw1) == FieldError(ann[0].0, ann[0].1, kw2);
      OnlyAnnotatedKeywordsMatter(ann[1..], kw1, kw2);
    }
  }

  /** The repr after setting one more attribute is the old repr with
      `, k = v` inserted before the closing parenthesis. */
  lemma FormatAppend(className: string, attrs: seq<(string, Value)>, a: (string, Value))
    requires |attrs| > 0
    ensures var before := Format(className, attrs);
      Format(className, attrs + [a]) == before[..|before| - 1] + ", " + Entry(a) + ")"
  {
    JoinAppend(attrs, a);
    var before := Format(className, attrs);
    assert before[..|before| - 1] == className + "(" + Join(attrs);
  }

  /** `TestModel`: `int_var: int`, `float_var: float`, `url: URL`. */
  const TestModelFields: seq<(string, TypeTag)> := [("int_var", IntType), ("float_var", FloatType), ("url", UrlType)]

  const LocalUrl := FieldValue(UrlField(Url("http://127.0.0.1")))

  function ValidKwargs(): map<string, Value> {
    map["int_var" := Plain(IntType, "42"), "float_var" := Plain(FloatType, "3.14"), "url" := LocalUrl]
  }

  /** Every field of the valid call passes its three checks. */
  lemma ValidKwargsPass()
    ensures ValidKwargs()["int_var"] == Plain(IntType, "42")
    ensures ValidKwargs()["float_var"] == Plain(FloatType, "3.14")
    ensures ValidKwargs()["url"] == LocalUrl
    ensures PassesUpTo(TestModelFields, ValidKwargs(), 3)
  {
    LocalAddressAccepted();
    var kwargs := ValidKwargs();
    assert FieldError("int_var", IntType, kwargs) == None;
    assert FieldError("float_var", FloatType, kwargs) == None;
    assert FieldError("url", UrlType, kwargs) == None;
  }

  /** The valid call of test_model.py:16 sets all three attributes, in order. */
  lemma TestModelAccepted()
    ensures Instantiate(TestModelFields, ValidKwargs())
         == Ok([("int_var", Plain(IntType, "42")), ("float_var", Plain(FloatType, "3.14")), ("url", LocalUrl)])
  {
    ValidKwargsPass();
    var r := Instantiate(TestModelFields, ValidKwargs());
    assert r.attrs[0] == ("int_var", Plain(IntType, "42"));
    assert r.attrs[1] == ("float_var", Plain(FloatType, "3.14"));
    assert r.attrs[2] == ("url", LocalUrl);
  }

  /** Three entries joined. */
  lemma JoinThree(a: (string, Value), b: (string, Value), c: (string, Value))
    ensures Join([a, b, c]) == Entry(a) + ", " + (Entry(b) + ", " + Entry(c))
  {
    assert [a, b, c][1..] == [b, c] && [b, c][1..] == [c];
    assert Join([b, c]) == Entry(b) + ", " + Entry(c);
  }

  /** The entries of the valid call, one lemma each. */
  lemma TestModelIntEntry()
    ensures Entry(("int_var", Plain(IntType, "42"))) == "int_var = 42"
  {
  }

  lemma TestModelFloatEntry()
    ensures Entry(("float_var", Plain(FloatType, "3.14"))) == "float_var = 3.14"
  {
  }

  lemma TestModelUrlEntry()
    ensures Entry(("url", LocalUrl)) == "url = http://127.0.0.1"
  {
    assert LocalUrl.Str() == "http://127.0.0.1";
  }

  /** The attribute list of the valid call, joined. */
  lemma TestModelJoined()
    ensures Join([("int_var", Plain(IntType, "42")), ("float_var", Plain(FloatType, "3.14")), ("url", LocalUrl)])
         == "int_var = 42" + ", " + ("float_var = 3.14" + ", " + "url = http://127.0.0.1")
  {
    JoinThree(("int_var", Plain(IntType, "42")), ("float_var", Plain(FloatType, "3.14")), ("url", LocalUrl));
    TestModelIntEntry();
    TestModelFloatEntry();
    TestModelUrlEntry();
  }

  /** Its repr. */
  lemma TestModelShown()
    ensures Format("TestModel", [("int_var", Plain(IntType, "42")), ("float_var", Plain(FloatType, "3.14")), ("url", LocalUrl)])
         == "TestModel(" + "int_var = 42" + ", " + "float_var = 3.14" + ", " + "url = http://127.0.0.1" + ")"
  {
    TestModelJoined();
  }

  /** `float_var="3.14"`: a `str` where a `float` is annotated. */
  lemma TestModelWrongType()
    ensures Instantiate(TestModelFields, ValidKwargs()["float_var" := Plain(StrType, "3.14")]) == Err(TypeError, "float_var")
  {
    var kwargs := ValidKwargs()["float_var" := Plain(StrType, "3.14")];
    assert FieldError("int_var", IntType, kwargs) == None;
    assert PassesUpTo(TestModelFields, kwargs, 1);
    assert FieldError("float_var", FloatType, kwargs) == Some(TypeError);
  }

  /** `urk=` instead of `url=`: the misspelt keyword is not looked at and
      `url` is missing. */
  lemma TestModelMisspeltKeyword()
    ensures Instantiate(TestModelFields, ValidKwargs() - {"url"} + map["urk" := LocalUrl]) == Err(AttributeError, "url")
  {
    var kwargs := ValidKwargs() - {"url"} + map["urk" := LocalUrl];
    assert FieldError("int_var", IntType, kwargs) == None;
    assert FieldError("float_var", FloatType, kwargs) == None;
    assert PassesUpTo(TestModelFields, kwargs, 2);
    assert FieldError("url", UrlType, kwargs) == Some(AttributeError);
  }

  /** No `url` keyword at all. */
  lemma TestModelMissingKeyword()
    ensures Instantiate(TestModelFields, ValidKwargs() - {"url"}) == Err(AttributeError, "url")
  {
    var kwargs := ValidKwargs() - {"url"};
    assert FieldError("int_var", IntType, kwargs) == None;
    assert FieldError("float_var", FloatType, kwargs) == None;
    assert PassesUpTo(TestModelFields, kwargs, 2);
    assert FieldError("url", UrlType, kwargs) == Some(AttributeError);
  }

  /** `url=URL("I am not a url")`: right type, fails `validate()`. */
  lemma TestModelInvalidUrl()
    ensures Instantiate(TestModelFields, ValidKwargs()["url" := FieldValue(UrlField(Url("I am not a url")))])
         == Err(ValidationError, "url")
  {
    PlainTextRejected();
    var kwargs := ValidKwargs()["url" := FieldValue(UrlField(Url("I am not a url")))];
    assert FieldError("int_var", IntType, kwargs) == None;
    assert FieldError("float_var", FloatType, kwargs) == None;
    assert PassesUpTo(TestModelFields, kwargs, 2);
    assert FieldError("url", UrlType, kwargs) == Some(ValidationError);
  }
}
