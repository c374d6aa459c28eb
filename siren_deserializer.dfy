/** `SirenDeserializer`: turns a raw Siren document into a `SirenClientObject`.
    Classes and the title are copied when present, links and properties are
    converted in document order, every action gets its method (GET by
    default) and its parameter convention, and embedded entities are split
    into link entities (those with an own `href`) and full entities, which
    are deserialized in turn.

    The pure functions below state what each step produces. The methods of
    the `SirenDeserializer` class follow the code's loops and its one
    stateful step, the schema lookup: an action with a JSON parameter gets
    the schema stream held by the schema cache under its class URL, or a
    freshly added stream that fetches and simplifies that schema. Each
    method is proved to produce its function's result once the schema
    handles are erased, since those depend on the cache. */
module SirenDeserializer {
  import opened Values
  import opened Streams
  import opened SirenModel
  import opened ReflectionHelpers
  import opened LruCache

  /** The action types a parameterised action may declare (`waheActionTypes`). */
  const WaheActionTypes: seq<string> := [MediaTypeJson, MediaTypeFormData, MediaTypeOctetStream]

  /** The field type of a file-upload parameter (`httpInputTypeFile`). */
  const HttpInputTypeFile := "file"

  // ---------------------------------------------------------------------
  // Properties

  /** The `PropertyTypes` a property value is reported as, or `None` when
      `deserializeProperties` skips it (an undefined value). */
  function PropertyKind(v: Value): (r: Option<PropertyTypes>)
    ensures r.None? <==> v.Undefined?
    ensures r == Some(NullValue) <==> v.Null?
    ensures r == Some(Number) <==> v.Num?
    ensures r == Some(Boolean) <==> v.Bool?
    ensures r == Some(String) <==> v.Str?
    ensures r == Some(Array) <==> v.Arr?
    ensures r == Some(Object) <==> v.Obj?
  {
    match v
    case Undefined => None
    case Null => Some(NullValue)
    case Num(_) => Some(Number)
    case Bool(_) => Some(Boolean)
    case Str(_) => Some(String)
    case Arr(_) => Some(Array)
    case Obj(_) => Some(Object)
  }

  /** The info `deserializeProperties` pushes for one property, if any. */
  function PropertyInfoOf(m: Member): seq<PropertyInfo> {
    match PropertyKind(m.val)
    case None => []
    case Some(kind) => [PropertyInfo(m.key, m.val, kind)]
  }

  /** The property infos of `entries`, in order. */
  function PropertyInfos(entries: seq<Member>): seq<PropertyInfo> {
    if |entries| == 0 then [] else PropertyInfoOf(entries[0]) + PropertyInfos(entries[1..])
  }

  /** Every info carries the kind of its value, and at most one info is
      made per property. */
  lemma {:induction false} PropertyInfosClassified(entries: seq<Member>)
    ensures |PropertyInfos(entries)| <= |entries|
    ensures forall i :: 0 <= i < |PropertyInfos(entries)| ==>
      PropertyKind(PropertyInfos(entries)[i].value) == Some(PropertyInfos(entries)[i].kind)
  {
    if |entries| > 0 {
      PropertyInfosClassified(entries[1..]);
      var first, rest := PropertyInfoOf(entries[0]), PropertyInfos(entries[1..]);
      assert forall i :: |first| <= i < |first| + |rest| ==> (first + rest)[i] == rest[i - |first|];
    }
  }

  /** When no value is undefined, each property gets one info, in key
      order, carrying its name and value. */
  lemma {:induction false} PropertyInfosComplete(entries: seq<Member>)
    requires forall i :: 0 <= i < |entries| ==> !entries[i].val.Undefined?
    ensures |PropertyInfos(entries)| == |entries|
    ensures forall i :: 0 <= i < |entries| ==>
      PropertyInfos(entries)[i].name == entries[i].key && PropertyInfos(entries)[i].value == entries[i].val
  {
    if |entries| > 0 {
      var tail := entries[1..];
      assert forall i :: 0 <= i < |tail| ==> tail[i] == entries[i + 1];
      PropertyInfosComplete(tail);
      var rest := PropertyInfos(tail);
      assert forall i :: 1 <= i < |entries| ==> PropertyInfos(entries)[i] == rest[i - 1];
    }
  }

  lemma PropertyStep(entries: seq<Member>, i: nat, kind: Option<PropertyTypes>)
    requires i < |entries| && kind == PropertyKind(entries[i].val)
    ensures PropertyInfos(entries[i..]) ==
      (if kind.Some? then [PropertyInfo(entries[i].key, entries[i].val, kind.value)] else []) + PropertyInfos(entries[i + 1..])
  {
    assert entries[i..][0] == entries[i] && entries[i..][1..] == entries[i + 1..];
  }

  /** `deserializeProperties(raw)`: the own properties of a truthy
      `raw.properties`, in `for..in` order; none otherwise. */
  function DeserializedProperties(raw: Value): (r: Result<seq<PropertyInfo>>)
    ensures r.Fail? <==> IsNullish(raw)
    ensures r.Ok? && !Truthy(Property(raw, "properties")) ==> r.value == []
    ensures r.Ok? && Truthy(Property(raw, "properties")) ==> r.value == PropertyInfos(OwnEntries(Property(raw, "properties")))
  {
    var filled :- HasFilledProperty(raw, "properties");
    if !filled then Ok([]) else Ok(PropertyInfos(OwnEntries(Property(raw, "properties"))))
  }

  // ---------------------------------------------------------------------
  // Links

  /** `new HypermediaLink([...link.rel], link.href, link.type)`. */
  function Link(link: Value): (r: Result<HypermediaLink>)
    ensures r.Ok? <==> !IsNullish(link) && (Property(link, "rel").Arr? || Property(link, "rel").Str?)
    ensures r.Fail? ==> r.error == TypeError
    ensures r.Ok? && Property(link, "rel").Arr? ==> r.value.relations == Property(link, "rel").items
    ensures r.Ok? ==> r.value.href == Property(link, "href") && r.value.mediaType == Property(link, "type")
  {
    var rel :- Get(link, "rel");
    var relations :- Spread(rel);
    Ok(HypermediaLink(relations, Property(link, "href"), Property(link, "type")))
  }

  /** `deserializeLinks(raw)`: the links of a filled `links` array, else none. */
  function DeserializedLinks(raw: Value): (r: Result<seq<HypermediaLink>>)
    ensures IsNullish(raw) ==> r == Fail(TypeError)
    ensures !IsNullish(raw) && !Property(raw, "links").Arr? ==> r == Ok([])
  {
    var filled :- HasFilledArrayProperty(raw, "links");
    if !filled then Ok([]) else MapAll(Link, Property(raw, "links").items)
  }

  // ---------------------------------------------------------------------
  // Actions

  /** `getMethod(action)`: the `HttpMethodTypes` member whose key is
      `action.method`, or GET, Siren's default, when there is none. */
  function GetMethod(action: Value): (m: HttpMethodTypes)
    requires !IsNullish(action)
    ensures MethodName(m) == ToStr(Property(action, "method"))
      || (m == GET && forall n :: MethodName(n) != ToStr(Property(action, "method")))
  {
    match MethodByKey(ToStr(Property(action, "method")))
    case Some(m) => m
    case None => GET
  }

  /** An action without a `method` gets GET. */
  lemma MethodDefaultsToGet(action: Value)
    requires action.Obj? && !HasKey(action.members, "method")
    ensures GetMethod(action) == GET
  {
    assert forall n :: MethodName(n) != "undefined";
  }

  /** An action naming a method gets that method. */
  lemma MethodByName(action: Value, m: HttpMethodTypes)
    requires action.Obj? && Lookup(action.members, "method") == Some(Str(MethodName(m)))
    ensures GetMethod(action) == m
  {
    assert forall n :: MethodName(n) == MethodName(m) ==> n == m;
  }

  /** `waheActionTypes.includes(type)`. */
  predicate IsWaheActionType(t: Value) {
    t.Str? && t.s in WaheActionTypes
  }

  /** `fillFileUploadInformation`: the action becomes a file upload, and the
      configuration takes the field's truthy `maxFileSizeBytes`,
      `allowMultiple` and comma-separated `accept`. */
  function FilledFileUploadInformation(a: HypermediaAction, field: Value): Result<HypermediaAction>
    requires !IsNullish(field)
  {
    var config := a.fileUploadConfiguration;
    var maxFileSizeBytes := Property(field, "maxFileSizeBytes");
    var config1 := if Truthy(maxFileSizeBytes) then config.(maxFileSizeBytes := maxFileSizeBytes) else config;
    var allowMultiple := Property(field, "allowMultiple");
    var config2 := if Truthy(allowMultiple) then config1.(allowMultiple := allowMultiple) else config1;
    var accept := Property(field, "accept");
    if !Truthy(accept) then
      Ok(a.(actionType := FileUpload, fileUploadConfiguration := config2))
    else if accept.Str? then
      Ok(a.(actionType := FileUpload, fileUploadConfiguration := config2.(accept := Split(accept.s, ','))))
    else
      Fail(TypeError)
  }

  /** A file-upload field: `accept` must be a string when truthy, and the
      configuration's accept string is then `accept` itself; nothing but
      the action type and the configuration changes. */
  lemma FileUploadInformationRules(a: HypermediaAction, field: Value)
    requires !IsNullish(field)
    ensures var r, accept := FilledFileUploadInformation(a, field), Property(field, "accept");
      && (r.Fail? <==> Truthy(accept) && !accept.Str?)
      && (r.Fail? ==> r.error == TypeError)
      && (r.Ok? ==> r.value == a.(actionType := FileUpload, fileUploadConfiguration := r.value.fileUploadConfiguration))
    ensures var r := FilledFileUploadInformation(a, field);
      r.Ok? ==> var config, before := r.value.fileUploadConfiguration, a.fileUploadConfiguration;
      && config.maxFileSizeBytes == (if Truthy(Property(field, "maxFileSizeBytes")) then Property(field, "maxFileSizeBytes") else before.maxFileSizeBytes)
      && config.allowMultiple == (if Truthy(Property(field, "allowMultiple")) then Property(field, "allowMultiple") else before.allowMultiple)
      && (!Truthy(Property(field, "accept")) ==> config.accept == before.accept)
      && (Truthy(Property(field, "accept")) ==> GetAcceptString(config) == Property(field, "accept").s)
  {
    var r, accept := FilledFileUploadInformation(a, field), Property(field, "accept");
    if r.Ok? && Truthy(accept) {
      AcceptRoundTrip(r.value.fileUploadConfiguration, accept.s);
    }
  }

  /** `fillJsonParameterInformation` up to the schema lookup: the action
      takes JSON parameters, needs exactly one parameter class, and takes
      the field's `value` as its defaults. */
  function FilledJsonParameterInformation(a: HypermediaAction, action: Value, field: Value): (r: Result<HypermediaAction>)
    requires !IsNullish(action) && !IsNullish(field)
    ensures r.Ok? <==> a.waheActionParameterClasses.Some? && |a.waheActionParameterClasses.value| == 1
    ensures r.Fail? ==> r.error == JsonFieldClassCountNotOne(Property(action, "name"))
    ensures r.Ok? ==> r.value == a.(actionType := JsonObjectParameters, defaultValues := Property(field, "value"))
  {
    var a1 := a.(actionType := JsonObjectParameters);
    if a1.waheActionParameterClasses.None? || |a1.waheActionParameterClasses.value| != 1 then
      Fail(JsonFieldClassCountNotOne(Property(action, "name")))
    else
      Ok(a1.(defaultValues := Property(field, "value")))
  }

  /** The action type a parameter field of type `fieldType` leads to, for
      an action that had `current` before. */
  function ActionTypeForField(fieldType: Value, current: ActionType): ActionType {
    if fieldType == Str(MediaTypeJson) then JsonObjectParameters
    else if fieldType == Str(HttpInputTypeFile) then FileUpload
    else current
  }

  /** Whether `action.fields` is an array with exactly one entry. */
  predicate HasSingleField(action: Value) {
    && action.Obj?
    && Property(action, "fields").Arr?
    && |Property(action, "fields").items| == 1
  }

  /** `parseWaheStyleParameters`, up to the schema lookup: the action must
      declare a supported type and exactly one named field; the field's
      name, type and classes are copied, and its type selects the JSON or
      file-upload convention. */
  function ParsedWaheStyleParameters(action: Value, a: HypermediaAction): Result<HypermediaAction> {
    var hasType :- HasProperty(action, "type");
    var name := Property(action, "name");
    if !hasType || !IsWaheActionType(Property(action, "type")) then Fail(UnsupportedActionType(name))
    else if HasFilledArrayProperty(action, "fields") != Ok(true) then Fail(FieldsMissing(name))
    else if |Property(action, "fields").items| != 1 then Fail(FieldCountNotOne(name))
    else
      var field := Property(action, "fields").items[0];
      var fieldName :- Get(field, "name");
      var fieldType := Property(field, "type");
      var a1 := a.(waheActionParameterName := fieldName, fieldType := fieldType);
      if !Truthy(fieldName) then Fail(FieldNameMissing(name))
      else
        var a2 :- WithParameterClasses(a1, Property(field, "class"));
        if fieldType == Str(MediaTypeJson) then FilledJsonParameterInformation(a2, action, field)
        else if fieldType == Str(HttpInputTypeFile) then FilledFileUploadInformation(a2, field)
        else Ok(a2)
  }

  /** The errors of `parseWaheStyleParameters`, in the order the code
      checks them: an unsupported action type, no `fields` array, a field
      count other than one. */
  lemma WaheStyleParameterErrors(action: Value, a: HypermediaAction)
    ensures var r := ParsedWaheStyleParameters(action, a);
      && (IsNullish(action) ==> r == Fail(TypeError))
      && (!IsNullish(action) && !IsWaheActionType(Property(action, "type")) ==>
            r == Fail(UnsupportedActionType(Property(action, "name"))))
      && (!IsNullish(action) && IsWaheActionType(Property(action, "type")) && !Property(action, "fields").Arr? ==>
            r == Fail(FieldsMissing(Property(action, "name"))))
      && (!IsNullish(action) && IsWaheActionType(Property(action, "type")) && Property(action, "fields").Arr?
          && !HasSingleField(action) ==>
            r == Fail(FieldCountNotOne(Property(action, "name"))))
  {
  }

  /** A parsed action declared a supported type and exactly one field,
      which is named; the action takes that name and type, and the field
      type selects the convention. */
  lemma WaheStyleParameterResult(action: Value, a: HypermediaAction)
    requires ParsedWaheStyleParameters(action, a).Ok?
    ensures IsWaheActionType(Property(action, "type")) && HasSingleField(action)
    ensures var r, field := ParsedWaheStyleParameters(action, a).value, Property(action, "fields").items[0];
      && !IsNullish(field)
      && Truthy(Property(field, "name"))
      && r.waheActionParameterName == Property(field, "name")
      && r.fieldType == Property(field, "type")
      && r.actionType == ActionTypeForField(Property(field, "type"), a.actionType)
  {
    var field := Property(action, "fields").items[0];
    if Property(field, "type") == Str(HttpInputTypeFile) {
      var a2 := WithParameterClasses(a.(waheActionParameterName := Property(field, "name"), fieldType := Property(field, "type")),
                                     Property(field, "class"));
      FileUploadInformationRules(a2.value, field);
    }
  }

  /** `if (field.class) action.waheActionParameterClasses = [...field.class]`. */
  function WithParameterClasses(a: HypermediaAction, classes: Value): (r: Result<HypermediaAction>)
    ensures !Truthy(classes) ==> r == Ok(a)
    ensures Truthy(classes) && classes.Arr? ==> r == Ok(a.(waheActionParameterClasses := Some(classes.items)))
    ensures Truthy(classes) && !classes.Arr? && !classes.Str? ==> r == Fail(TypeError)
    ensures r.Ok? ==> r.value.actionType == a.actionType
  {
    if !Truthy(classes) then Ok(a)
    else
      var items :- Spread(classes);
      Ok(a.(waheActionParameterClasses := Some(items)))
  }

  /** Whether `deserializeActionParameters` looks at the parameters at all:
      `action.fields` must be an array with at least one entry. */
  predicate HasParameterFields(action: Value) {
    action.Obj? && Property(action, "fields").Arr? && |Property(action, "fields").items| > 0
  }

  /** `deserializeActionParameters`: an action with a missing or empty
      `fields` array takes no parameters, and nothing else is checked. */
  function ActionParameters(action: Value, a: HypermediaAction): (r: Result<HypermediaAction>)
    ensures IsNullish(action) ==> r == Fail(TypeError)
    ensures !IsNullish(action) && !HasParameterFields(action) ==> r == Ok(a.(actionType := NoParameters))
    ensures HasParameterFields(action) ==> r == ParsedWaheStyleParameters(action, a)
  {
    var filled :- HasFilledArrayProperty(action, "fields");
    if !filled || |Property(action, "fields").items| == 0 then Ok(a.(actionType := NoParameters))
    else ParsedWaheStyleParameters(action, a)
  }

  /** The fields `deserializeActions` copies onto a new action before it
      looks at the parameters: name, classes (from a filled array only),
      method, href, title and type. */
  function ActionHead(action: Value): (r: Result<HypermediaAction>)
    ensures r.Fail? <==> IsNullish(action)
    ensures r.Ok? ==> r.value == NewHypermediaAction().(
      name := Property(action, "name"),
      classes := (if Property(action, "class").Arr? then Property(action, "class").items else []),
      httpMethod := GetMethod(action),
      href := Property(action, "href"),
      title := Property(action, "title"),
      contentType := Property(action, "type"))
  {
    var name :- Get(action, "name");
    var a := NewHypermediaAction().(name := name);
    var a1 := if HasFilledArrayProperty(action, "class") == Ok(true) then a.(classes := Property(action, "class").items) else a;
    Ok(a1.(httpMethod := GetMethod(action), href := Property(action, "href"),
           title := Property(action, "title"), contentType := Property(action, "type")))
  }

  /** Parsing the parameters leaves the schema handle alone; only the
      schema lookup sets it. */
  lemma ActionParametersKeepSchema(action: Value, a: HypermediaAction)
    ensures ActionParameters(action, a).Ok? ==>
      ActionParameters(action, a).value.waheActionParameterJsonSchema == a.waheActionParameterJsonSchema
  {
    if HasParameterFields(action) && HasSingleField(action) {
      var field := Property(action, "fields").items[0];
      if !IsNullish(field) && Property(field, "type") == Str(HttpInputTypeFile) {
        var a2 := WithParameterClasses(a.(waheActionParameterName := Property(field, "name"), fieldType := Property(field, "type")),
                                       Property(field, "class"));
        if a2.Ok? {
          FileUploadInformationRules(a2.value, field);
        }
      }
    }
  }

  /** One action of `deserializeActions`, up to the schema lookup. */
  function DeserializedAction(action: Value): Result<HypermediaAction> {
    var head :- ActionHead(action);
    ActionParameters(action, head)
  }

  /** `deserializeActions(raw)`: the actions of a filled `actions` array. */
  function DeserializedActions(raw: Value): (r: Result<seq<HypermediaAction>>)
    ensures IsNullish(raw) ==> r == Fail(TypeError)
    ensures !IsNullish(raw) && !Property(raw, "actions").Arr? ==> r == Ok([])
  {
    var filled :- HasFilledArrayProperty(raw, "actions");
    if !filled then Ok([]) else MapAll(DeserializedAction, Property(raw, "actions").items)
  }

  // ---------------------------------------------------------------------
  // Embedded entities

  /** `isEmbeddedLinkEntity(entity)`: whether it has an own `href`. */
  function IsEmbeddedLinkEntity(entity: Value): (r: Result<bool>)
    ensures r.Fail? <==> IsNullish(entity)
    ensures r.Ok? ==> (r.value <==> IsLinkEntity(entity))
  {
    HasOwn(entity, "href")
  }

  predicate IsLinkEntity(entity: Value) {
    entity.Obj? && HasKey(entity.members, "href")
  }

  /** The entities that go to the link bucket, in order. */
  function LinkEntitiesIn(entities: seq<Value>): (r: seq<Value>)
    ensures forall i :: 0 <= i < |r| ==> IsLinkEntity(r[i])
  {
    if |entities| == 0 then []
    else if IsLinkEntity(entities[0]) then [entities[0]] + LinkEntitiesIn(entities[1..])
    else LinkEntitiesIn(entities[1..])
  }

  /** The entities that go to the embedded-entity bucket, in order. */
  function FullEntitiesIn(entities: seq<Value>): (r: seq<Value>)
    ensures forall i :: 0 <= i < |r| ==> !IsLinkEntity(r[i])
  {
    if |entities| == 0 then []
    else if IsLinkEntity(entities[0]) then FullEntitiesIn(entities[1..])
    else [entities[0]] + FullEntitiesIn(entities[1..])
  }

  /** Every entity goes to exactly one of the two buckets. */
  lemma {:induction false} BucketsPartition(entities: seq<Value>)
    ensures multiset(LinkEntitiesIn(entities)) + multiset(FullEntitiesIn(entities)) == multiset(entities)
    ensures |LinkEntitiesIn(entities)| + |FullEntitiesIn(entities)| == |entities|
  {
    if |entities| > 0 {
      BucketsPartition(entities[1..]);
      assert entities == [entities[0]] + entities[1..];
    }
  }

  /** One entry of `deserializeEmbeddedLinkEntity`, for a link entity. */
  function LinkEntity(entity: Value): (r: Result<EmbeddedLinkEntity>)
    requires !IsNullish(entity)
    ensures r.Ok? <==>
      (Property(entity, "rel").Arr? || Property(entity, "rel").Str?) &&
      (Property(entity, "class").Arr? || Property(entity, "class").Str?)
    ensures r.Fail? ==> r.error == TypeError
    ensures r.Ok? ==> r.value == NewEmbeddedLinkEntity().(
      href := Property(entity, "href"), relations := r.value.relations, classes := r.value.classes,
      title := Property(entity, "title"), mediaType := Property(entity, "mediaType"))
  {
    var relations :- Spread(Property(entity, "rel"));
    var classes :- Spread(Property(entity, "class"));
    Ok(NewEmbeddedLinkEntity().(
      href := Property(entity, "href"), relations := relations, classes := classes,
      title := Property(entity, "title"), mediaType := Property(entity, "mediaType")))
  }

  /** `deserializeEmbeddedLinkEntity(entities)`. */
  function EmbeddedLinkEntities(entities: seq<Value>): Result<seq<EmbeddedLinkEntity>> {
    if |entities| == 0 then Ok([])
    else
      var isLink :- IsEmbeddedLinkEntity(entities[0]);
      if !isLink then EmbeddedLinkEntities(entities[1..])
      else
        var first :- LinkEntity(entities[0]);
        var rest :- EmbeddedLinkEntities(entities[1..]);
        Ok([first] + rest)
  }

  /** `deserializeEmbeddedEntitys(entities)`, up to the schema lookups. */
  function EmbeddedEntities(entities: seq<Value>): Result<seq<EmbeddedEntity>>
    decreases entities, 0
  {
    if |entities| == 0 then Ok([])
    else
      var isLink :- IsEmbeddedLinkEntity(entities[0]);
      if isLink then EmbeddedEntities(entities[1..])
      else
        var first :- DeserializedEmbeddedEntity(entities[0]);
        var rest :- EmbeddedEntities(entities[1..]);
        Ok([first] + rest)
  }

  /** Both buckets fail on a null or undefined entity, which has no
      `hasOwnProperty`. */
  lemma {:induction false} NullishEntityFails(entities: seq<Value>, i: nat)
    requires i < |entities| && IsNullish(entities[i])
    ensures EmbeddedLinkEntities(entities).Fail? && EmbeddedEntities(entities).Fail?
  {
    if i > 0 {
      NullishEntityFails(entities[1..], i - 1);
    }
  }

  /** The link bucket holds, in order, the link entity built from each
      entity with an own `href`. */
  lemma {:induction false} LinkBucketContents(entities: seq<Value>)
    ensures var r := EmbeddedLinkEntities(entities);
      r.Ok? ==>
        && |r.value| == |LinkEntitiesIn(entities)|
        && forall i :: 0 <= i < |r.value| ==>
             !IsNullish(LinkEntitiesIn(entities)[i]) && LinkEntity(LinkEntitiesIn(entities)[i]) == Ok(r.value[i])
  {
    if |entities| > 0 {
      var tail := entities[1..];
      LinkBucketContents(tail);
      var r := EmbeddedLinkEntities(entities);
      if r.Ok? && IsLinkEntity(entities[0]) {
        var first, rest := LinkEntity(entities[0]).value, EmbeddedLinkEntities(tail).value;
        assert r.value == [first] + rest;
        var linked, linkedTail := LinkEntitiesIn(entities), LinkEntitiesIn(tail);
        assert linked == [entities[0]] + linkedTail;
        forall i | 0 <= i < |r.value|
          ensures !IsNullish(linked[i]) && LinkEntity(linked[i]) == Ok(r.value[i])
        {
          if i > 0 {
            assert r.value[i] == rest[i - 1] && linked[i] == linkedTail[i - 1];
          }
        }
      }
    }
  }

  /** The entity bucket holds, in order, the deserialized form of each
      entity without an own `href`. */
  lemma {:induction false} FullBucketContents(entities: seq<Value>)
    ensures var r := EmbeddedEntities(entities);
      r.Ok? ==>
        && |r.value| == |FullEntitiesIn(entities)|
        && forall i :: 0 <= i < |r.value| ==>
             DeserializedEmbeddedEntity(FullEntitiesIn(entities)[i]) == Ok(r.value[i])
  {
    if |entities| > 0 {
      var tail := entities[1..];
      FullBucketContents(tail);
      var r := EmbeddedEntities(entities);
      if r.Ok? && !IsLinkEntity(entities[0]) {
        var first, rest := DeserializedEmbeddedEntity(entities[0]).value, EmbeddedEntities(tail).value;
        assert r.value == [first] + rest;
        assert FullEntitiesIn(entities) == [entities[0]] + FullEntitiesIn(tail);
        assert forall i :: 1 <= i < |r.value| ==> r.value[i] == rest[i - 1] && FullEntitiesIn(entities)[i] == FullEntitiesIn(tail)[i - 1];
      }
    }
  }

  lemma EmbeddedEntitiesStep(entities: seq<Value>, i: nat)
    requires i < |entities|
    ensures EmbeddedEntities(entities[i..]) ==
      if IsNullish(entities[i]) then Fail(TypeError)
      else if IsLinkEntity(entities[i]) then EmbeddedEntities(entities[i + 1..])
      else if DeserializedEmbeddedEntity(entities[i]).Fail? then Fail(DeserializedEmbeddedEntity(entities[i]).error)
      else Prepended([DeserializedEmbeddedEntity(entities[i]).value], EmbeddedEntities(entities[i + 1..]))
  {
    assert entities[i..][0] == entities[i] && entities[i..][1..] == entities[i + 1..];
  }

  lemma LinkEntitiesStep(entities: seq<Value>, i: nat)
    requires i < |entities|
    ensures EmbeddedLinkEntities(entities[i..]) ==
      if IsNullish(entities[i]) then Fail(TypeError)
      else if !IsLinkEntity(entities[i]) then EmbeddedLinkEntities(entities[i + 1..])
      else if LinkEntity(entities[i]).Fail? then Fail(LinkEntity(entities[i]).error)
      else Prepended([LinkEntity(entities[i]).value], EmbeddedLinkEntities(entities[i + 1..]))
  {
    assert entities[i..][0] == entities[i] && entities[i..][1..] == entities[i + 1..];
  }

  /** `deserializeEmbeddedEntity(raw)`: its relations, then the entity. */
  function DeserializedEmbeddedEntity(raw: Value): (r: Result<EmbeddedEntity>)
    decreases raw, 2
  {
    var rel :- Get(raw, "rel");
    var relations :- Spread(rel);
    var entity :- DeserializedEntity(raw);
    Ok(EmbeddedEntity(relations, entity))
  }

  /** The two buckets of a filled `entities` array; both empty otherwise. */
  function EmbeddedBuckets(raw: Value): (r: Result<(seq<EmbeddedLinkEntity>, seq<EmbeddedEntity>)>)
    requires !IsNullish(raw)
    ensures !Property(raw, "entities").Arr? ==> r == Ok(([], []))
    decreases raw, 0
  {
    var entities := Property(raw, "entities");
    if !entities.Arr? then Ok(([], []))
    else
      var linkEntities :- EmbeddedLinkEntities(entities.items);
      var embeddedEntities :- EmbeddedEntities(entities.items);
      Ok((linkEntities, embeddedEntities))
  }

  // ---------------------------------------------------------------------
  // Entities

  /** The classes and title `deserializeEntity` copies onto a new object:
      classes only from a filled array, the title only when truthy. */
  function EntityHead(raw: Value): (r: Result<SirenClientObject>)
    ensures r.Fail? <==> IsNullish(raw)
    ensures r.Ok? ==> r.value.classes == (if Property(raw, "class").Arr? then Property(raw, "class").items else [])
    ensures r.Ok? ==> r.value.title == (if Truthy(Property(raw, "title")) then Property(raw, "title") else Str(""))
    ensures r.Ok? ==> r.value == NewSirenClientObject().(classes := r.value.classes, title := r.value.title)
  {
    var hasClasses :- HasFilledArrayProperty(raw, "class");
    var head := NewSirenClientObject();
    var head1 := if hasClasses then head.(classes := Property(raw, "class").items) else head;
    if HasFilledProperty(raw, "title") == Ok(true) then Ok(head1.(title := Property(raw, "title"))) else Ok(head1)
  }

  /** `deserializeEntity(raw, new SirenClientObject())`, up to the schema
      lookups: the head, then links, properties, actions and the two
      embedded buckets, failing at the first step that throws. */
  function DeserializedEntity(raw: Value): (r: Result<SirenClientObject>)
    decreases raw, 1
  {
    var head :- EntityHead(raw);
    var links :- DeserializedLinks(raw);
    var properties := DeserializedProperties(raw).value;
    var actions :- DeserializedActions(raw);
    var buckets :- EmbeddedBuckets(raw);
    Ok(head.(links := links, properties := properties, actions := actions,
             embeddedLinkEntities := buckets.0, embeddedEntities := buckets.1))
  }

  /** A document that is null or undefined throws a TypeError. */
  lemma NullishDocumentFails(raw: Value)
    requires IsNullish(raw)
    ensures DeserializedEntity(raw) == Fail(TypeError)
  {
  }

  /** A document with none of the Siren members deserializes to the
      defaults of a new `SirenClientObject`. */
  lemma EmptyDocument(raw: Value)
    requires raw.Obj?
    requires forall k :: k in ["class", "title", "links", "properties", "actions", "entities"] ==> !HasKey(raw.members, k)
    ensures DeserializedEntity(raw) == Ok(NewSirenClientObject())
  {
    assert !HasKey(raw.members, "class") && !HasKey(raw.members, "title") && !HasKey(raw.members, "links");
    assert !HasKey(raw.members, "properties") && !HasKey(raw.members, "actions") && !HasKey(raw.members, "entities");
  }

  // ---------------------------------------------------------------------
  // Schema handles

  /** The deserialized values with every schema handle removed: what the
      functions above describe. */
  function EraseAction(a: HypermediaAction): HypermediaAction {
    a.(waheActionParameterJsonSchema := None)
  }

  function EraseActions(s: seq<HypermediaAction>): (r: seq<HypermediaAction>)
    ensures |r| == |s| && forall i :: 0 <= i < |s| ==> r[i] == EraseAction(s[i])
  {
    seq(|s|, i requires 0 <= i < |s| => EraseAction(s[i]))
  }

  function EraseObject(o: SirenClientObject): SirenClientObject
    decreases o, 2
  {
    o.(actions := EraseActions(o.actions), embeddedEntities := EraseEmbeddeds(o.embeddedEntities))
  }

  function EraseEmbeddeds(s: seq<EmbeddedEntity>): (r: seq<EmbeddedEntity>)
    ensures |r| == |s| && forall i :: 0 <= i < |s| ==> r[i] == EraseEmbedded(s[i])
    decreases s, 1
  {
    seq(|s|, i requires 0 <= i < |s| => EraseEmbedded(s[i]))
  }

  function EraseEmbedded(e: EmbeddedEntity): EmbeddedEntity
    decreases e, 0
  {
    EmbeddedEntity(e.relations, EraseObject(e.entity))
  }

  function ActionErased(r: Result<HypermediaAction>): Result<HypermediaAction> {
    if r.Fail? then Fail(r.error) else Ok(EraseAction(r.value))
  }

  function ActionsErased(r: Result<seq<HypermediaAction>>): Result<seq<HypermediaAction>> {
    if r.Fail? then Fail(r.error) else Ok(EraseActions(r.value))
  }

  function ObjectErased(r: Result<SirenClientObject>): Result<SirenClientObject> {
    if r.Fail? then Fail(r.error) else Ok(EraseObject(r.value))
  }

  function EmbeddedErased(r: Result<EmbeddedEntity>): Result<EmbeddedEntity> {
    if r.Fail? then Fail(r.error) else Ok(EraseEmbedded(r.value))
  }

  function EmbeddedsErased(r: Result<seq<EmbeddedEntity>>): Result<seq<EmbeddedEntity>> {
    if r.Fail? then Fail(r.error) else Ok(EraseEmbeddeds(r.value))
  }

  lemma EraseActionsAppend(s: seq<HypermediaAction>, a: HypermediaAction)
    ensures EraseActions(s + [a]) == EraseActions(s) + [EraseAction(a)]
  {
  }

  lemma EraseEmbeddedsAppend(s: seq<EmbeddedEntity>, e: EmbeddedEntity)
    ensures EraseEmbeddeds(s + [e]) == EraseEmbeddeds(s) + [EraseEmbedded(e)]
  {
  }

  // ---------------------------------------------------------------------
  // The deserializer and its schema cache

  class SirenDeserializer {
    /** Simplified action-parameter schemas, keyed by schema URL. */
    const schemaCache: ObservableLruCache<Value>

    constructor (schemaCache: ObservableLruCache<Value>)
      ensures this.schemaCache == schemaCache
    {
      this.schemaCache := schemaCache;
    }

    /** What a lookup of `url` in the schema cache hands out, if anything. */
    function CachedSchema(url: Value): Option<Stream>
      reads schemaCache, schemaCache.cacheItems.Values
    {
      if url in schemaCache.cacheItems then schemaCache.cacheItems[url].GetValue() else None
    }

    /** The schema handle a lookup of `url` attaches to an action: the
        cached stream on a hit, and on a miss the shared stream that fetches
        `url` and simplifies the response. */
    function SchemaHandle(url: Value): Stream
      reads schemaCache, schemaCache.cacheItems.Values
    {
      match CachedSchema(url)
      case Some(stream) => stream
      case None => Shared(Simplified(HttpGet(url)))
    }

    /** `deserialize(raw)`. */
    method Deserialize(raw: Value) returns (r: Result<SirenClientObject>)
      requires schemaCache.Valid()
      modifies schemaCache
      ensures schemaCache.Valid()
      ensures ObjectErased(r) == DeserializedEntity(raw)
    {
      r := DeserializeEntity(raw);
    }

    /** `deserializeEmbeddedEntity(raw)`. */
    method DeserializeEmbeddedEntity(raw: Value) returns (r: Result<EmbeddedEntity>)
      requires schemaCache.Valid()
      modifies schemaCache
      ensures schemaCache.Valid()
      ensures EmbeddedErased(r) == DeserializedEmbeddedEntity(raw)
      decreases raw, 2
    {
      var rel :- Get(raw, "rel");
      var relations :- Spread(rel);
      var entity :- DeserializeEntity(raw);
      r := Ok(EmbeddedEntity(relations, entity));
    }

    /** `deserializeEntity(raw, new SirenClientObject())`. */
    method DeserializeEntity(raw: Value) returns (r: Result<SirenClientObject>)
      requires schemaCache.Valid()
      modifies schemaCache
      ensures schemaCache.Valid()
      ensures ObjectErased(r) == DeserializedEntity(raw)
      decreases raw, 1
    {
      var result :- EntityHead(raw);
      var links := DeserializeLinks(raw);
      if links.Fail? {
        return Fail(links.error);
      }
      var properties := DeserializeProperties(raw);
      var actions := DeserializeActions(raw);
      if actions.Fail? {
        return Fail(actions.error);
      }
      result := result.(links := links.value, properties := properties.value, actions := actions.value);
      if HasFilledArrayProperty(raw, "entities") == Ok(true) {
        var entities := Property(raw, "entities").items;
        var linkEntities := DeserializeEmbeddedLinkEntities(entities);
        if linkEntities.Fail? {
          return Fail(linkEntities.error);
        }
        var embeddedEntities := DeserializeEmbeddedEntities(entities);
        if embeddedEntities.Fail? {
          return Fail(embeddedEntities.error);
        }
        result := result.(embeddedLinkEntities := linkEntities.value, embeddedEntities := embeddedEntities.value);
      }
      r := Ok(result);
    }

    /** `deserializeLinks(raw)`. */
    method DeserializeLinks(raw: Value) returns (r: Result<seq<HypermediaLink>>)
      ensures r == DeserializedLinks(raw)
    {
      var filled :- HasFilledArrayProperty(raw, "links");
      if !filled {
        return Ok([]);
      }
      var links := Property(raw, "links").items;
      var result: seq<HypermediaLink> := [];
      var i := 0;
      assert links[0..] == links;
      PrependedNothing(MapAll(Link, links));
      while i < |links|
        invariant 0 <= i <= |links|
        invariant MapAll(Link, links) == Prepended(result, MapAll(Link, links[i..]))
      {
        MapAllStep(Link, links, i);
        var link :- Link(links[i]);
        PrependedAssoc(result, [link], MapAll(Link, links[i + 1..]));
        result := result + [link];
        i := i + 1;
      }
      assert links[i..] == [] && result + [] == result;
      r := Ok(result);
    }

    /** `deserializeProperties(raw)`. */
    method DeserializeProperties(raw: Value) returns (r: Result<seq<PropertyInfo>>)
      ensures r == DeserializedProperties(raw)
    {
      var filled :- HasFilledProperty(raw, "properties");
      if !filled {
        return Ok([]);
      }
      var infos := PropertyLoop(OwnEntries(Property(raw, "properties")));
      r := Ok(infos);
    }

    /** The `for..in` loop of `deserializeProperties` over the own
        properties `entries`. */
    method PropertyLoop(entries: seq<Member>) returns (result: seq<PropertyInfo>)
      ensures result == PropertyInfos(entries)
    {
      result := [];
      var i := 0;
      assert entries[0..] == entries;
      while i < |entries|
        invariant 0 <= i <= |entries|
        invariant PropertyInfos(entries) == result + PropertyInfos(entries[i..])
      {
        var property, value := entries[i].key, entries[i].val;
        var kind := PropertyKind(value);
        PropertyStep(entries, i, kind);
        if kind.Some? {
          result := result + [PropertyInfo(property, value, kind.value)];
        }
        i := i + 1;
      }
      assert entries[i..] == [] && result + [] == result;
    }

    /** `deserializeActions(raw)`. */
    method DeserializeActions(raw: Value) returns (r: Result<seq<HypermediaAction>>)
      requires schemaCache.Valid()
      modifies schemaCache
      ensures schemaCache.Valid()
      ensures ActionsErased(r) == DeserializedActions(raw)
    {
      var filled :- HasFilledArrayProperty(raw, "actions");
      if !filled {
        return Ok([]);
      }
      r := DeserializeActionList(Property(raw, "actions").items);
    }

    /** The `forEach` loop of `deserializeActions` over the raw actions. */
    method DeserializeActionList(actions: seq<Value>) returns (r: Result<seq<HypermediaAction>>)
      requires schemaCache.Valid()
      modifies schemaCache
      ensures schemaCache.Valid()
      ensures ActionsErased(r) == MapAll(DeserializedAction, actions)
    {
      var result: seq<HypermediaAction> := [];
      var i := 0;
      assert actions[0..] == actions;
      PrependedNothing(MapAll(DeserializedAction, actions));
      while i < |actions|
        invariant 0 <= i <= |actions|
        invariant schemaCache.Valid()
        invariant MapAll(DeserializedAction, actions) == Prepended(EraseActions(result), MapAll(DeserializedAction, actions[i..]))
      {
        MapAllStep(DeserializedAction, actions, i);
        var hypermediaAction :- DeserializeAction(actions[i]);
        PrependedAssoc(EraseActions(result), [EraseAction(hypermediaAction)], MapAll(DeserializedAction, actions[i + 1..]));
        EraseActionsAppend(result, hypermediaAction);
        result := result + [hypermediaAction];
        i := i + 1;
      }
      assert actions[i..] == [] && EraseActions(result) + [] == EraseActions(result);
      r := Ok(result);
    }

    /** The body of the `deserializeActions` loop for one raw action. */
    method DeserializeAction(action: Value) returns (r: Result<HypermediaAction>)
      requires schemaCache.Valid()
      modifies schemaCache
      ensures schemaCache.Valid()
      ensures ActionErased(r) == DeserializedAction(action)
      ensures r.Ok? && r.value.actionType == JsonObjectParameters ==>
        && r.value.waheActionParameterClasses.Some? && |r.value.waheActionParameterClasses.value| == 1
        && r.value.waheActionParameterJsonSchema == Some(old(SchemaHandle(r.value.waheActionParameterClasses.value[0])))
    {
      var head := ActionHead(action);
      if head.Fail? {
        return Fail(head.error);
      }
      var hypermediaAction := head.value;
      assert hypermediaAction.actionType == NoParameters && hypermediaAction.waheActionParameterJsonSchema == None;
      ActionParametersKeepSchema(action, hypermediaAction);
      r := DeserializeActionParameters(action, hypermediaAction);
    }

    /** `deserializeActionParameters(action, hypermediaAction)`. */
    method DeserializeActionParameters(action: Value, hypermediaAction: HypermediaAction) returns (r: Result<HypermediaAction>)
      requires schemaCache.Valid()
      modifies schemaCache
      ensures schemaCache.Valid()
      ensures ActionErased(r) == ActionErased(ActionParameters(action, hypermediaAction))
      ensures r.Ok? && r.value.actionType == JsonObjectParameters && hypermediaAction.actionType != JsonObjectParameters ==>
        && r.value.waheActionParameterClasses.Some? && |r.value.waheActionParameterClasses.value| == 1
        && r.value.waheActionParameterJsonSchema == Some(old(SchemaHandle(r.value.waheActionParameterClasses.value[0])))
    {
      var filled :- HasFilledArrayProperty(action, "fields");
      if !filled || |Property(action, "fields").items| == 0 {
        r := Ok(hypermediaAction.(actionType := NoParameters));
      } else {
        r := ParseWaheStyleParameters(action, hypermediaAction);
      }
    }

    /** `parseWaheStyleParameters(action, hypermediaAction)`. */
    method ParseWaheStyleParameters(action: Value, hypermediaAction: HypermediaAction) returns (r: Result<HypermediaAction>)
      requires schemaCache.Valid()
      modifies schemaCache
      ensures schemaCache.Valid()
      ensures ActionErased(r) == ActionErased(ParsedWaheStyleParameters(action, hypermediaAction))
      ensures r.Ok? && r.value.actionType == JsonObjectParameters && hypermediaAction.actionType != JsonObjectParameters ==>
        && r.value.waheActionParameterClasses.Some? && |r.value.waheActionParameterClasses.value| == 1
        && r.value.waheActionParameterJsonSchema == Some(old(SchemaHandle(r.value.waheActionParameterClasses.value[0])))
    {
      var hasType :- HasProperty(action, "type");
      var name := Property(action, "name");
      if !hasType || !IsWaheActionType(Property(action, "type")) {
        return Fail(UnsupportedActionType(name));
      }
      if HasFilledArrayProperty(action, "fields") != Ok(true) {
        return Fail(FieldsMissing(name));
      }
      var fields := Property(action, "fields").items;
      if |fields| != 1 {
        return Fail(FieldCountNotOne(name));
      }
      var actionField := fields[0];
      var fieldName :- Get(actionField, "name");
      var result := hypermediaAction.(waheActionParameterName := fieldName, fieldType := Property(actionField, "type"));
      if !Truthy(fieldName) {
        return Fail(FieldNameMissing(name));
      }
      result :- WithParameterClasses(result, Property(actionField, "class"));
      if result.fieldType == Str(MediaTypeJson) {
        r := FillJsonParameterInformation(result, action, actionField);
      } else if result.fieldType == Str(HttpInputTypeFile) {
        r := FilledFileUploadInformation(result, actionField);
      } else {
        r := Ok(result);
      }
    }

    /** `fillJsonParameterInformation(hypermediaAction, action, actionField)`. */
    method FillJsonParameterInformation(hypermediaAction: HypermediaAction, action: Value, actionField: Value)
      returns (r: Result<HypermediaAction>)
      requires !IsNullish(action) && !IsNullish(actionField)
      requires schemaCache.Valid()
      modifies schemaCache
      ensures schemaCache.Valid()
      ensures ActionErased(r) == ActionErased(FilledJsonParameterInformation(hypermediaAction, action, actionField))
      ensures r.Ok? ==>
        && r.value.actionType == JsonObjectParameters
        && r.value.waheActionParameterClasses == hypermediaAction.waheActionParameterClasses
        && hypermediaAction.waheActionParameterClasses.Some? && |hypermediaAction.waheActionParameterClasses.value| == 1
        && r.value.waheActionParameterJsonSchema == Some(old(SchemaHandle(hypermediaAction.waheActionParameterClasses.value[0])))
    {
      var result := hypermediaAction.(actionType := JsonObjectParameters);
      if result.waheActionParameterClasses.None? || |result.waheActionParameterClasses.value| != 1 {
        return Fail(JsonFieldClassCountNotOne(Property(action, "name")));
      }
      result := result.(defaultValues := Property(actionField, "value"));
      result := GetActionParameterJsonSchema(result.waheActionParameterClasses.value[0], result);
      r := Ok(result);
    }

    /** `getActionParameterJsonSchema(schemaUrl, hypermediaAction)`: a cache
        hit hands out the cached stream and fetches nothing; a miss adds one
        item, a stream that fetches `schemaUrl` and simplifies the response,
        and hands out its shared stream. Only the schema handle changes. */
    method GetActionParameterJsonSchema(schemaUrl: Value, hypermediaAction: HypermediaAction) returns (r: HypermediaAction)
      requires schemaCache.Valid()
      modifies schemaCache
      ensures schemaCache.Valid()
      ensures r == hypermediaAction.(waheActionParameterJsonSchema := Some(old(SchemaHandle(schemaUrl))))
      ensures old(CachedSchema(schemaUrl)).Some? ==>
        && r.waheActionParameterJsonSchema == old(CachedSchema(schemaUrl))
        && schemaCache.cacheItems == old(schemaCache.cacheItems)
        && schemaCache.order == Touch(old(schemaCache.order), schemaUrl)
      ensures old(CachedSchema(schemaUrl)).None? ==>
        && r.waheActionParameterJsonSchema == Some(Shared(Simplified(HttpGet(schemaUrl))))
        && schemaCache.order == AfterAdd(Touch(old(schemaCache.order), schemaUrl), schemaCache.maxEntries, schemaUrl)
        && schemaUrl in schemaCache.cacheItems
        && fresh(schemaCache.cacheItems[schemaUrl])
        && schemaCache.cacheItems[schemaUrl].GetValue() == r.waheActionParameterJsonSchema
        && forall k :: k in schemaCache.cacheItems && k != schemaUrl ==>
             k in old(schemaCache.cacheItems) && schemaCache.cacheItems[k] == old(schemaCache.cacheItems)[k]
    {
      var cached := schemaCache.GetItem(schemaUrl);
      if cached.Some? {
        return hypermediaAction.(waheActionParameterJsonSchema := cached);
      }
      var simplifiedResponse := Simplified(HttpGet(schemaUrl));
      var cachedResponse := schemaCache.AddItem(schemaUrl, simplifiedResponse);
      r := hypermediaAction.(waheActionParameterJsonSchema := Some(cachedResponse));
    }

    /** `deserializeEmbeddedLinkEntity(entities)`. */
    method DeserializeEmbeddedLinkEntities(entities: seq<Value>) returns (r: Result<seq<EmbeddedLinkEntity>>)
      ensures r == EmbeddedLinkEntities(entities)
    {
      var result: seq<EmbeddedLinkEntity> := [];
      var i := 0;
      assert entities[0..] == entities;
      PrependedNothing(EmbeddedLinkEntities(entities));
      while i < |entities|
        invariant 0 <= i <= |entities|
        invariant EmbeddedLinkEntities(entities) == Prepended(result, EmbeddedLinkEntities(entities[i..]))
      {
        LinkEntitiesStep(entities, i);
        var isLink :- IsEmbeddedLinkEntity(entities[i]);
        if isLink {
          var linkEntity :- LinkEntity(entities[i]);
          PrependedAssoc(result, [linkEntity], EmbeddedLinkEntities(entities[i + 1..]));
          result := result + [linkEntity];
        }
        i := i + 1;
      }
      assert entities[i..] == [] && result + [] == result;
      r := Ok(result);
    }

    /** `deserializeEmbeddedEntitys(entities)`. */
    method DeserializeEmbeddedEntities(entities: seq<Value>) returns (r: Result<seq<EmbeddedEntity>>)
      requires schemaCache.Valid()
      modifies schemaCache
      ensures schemaCache.Valid()
      ensures EmbeddedsErased(r) == EmbeddedEntities(entities)
      decreases entities, 0
    {
      var result: seq<EmbeddedEntity> := [];
      var i := 0;
      assert entities[0..] == entities;
      PrependedNothing(EmbeddedEntities(entities));
      while i < |entities|
        invariant 0 <= i <= |entities|
        invariant schemaCache.Valid()
        invariant EmbeddedEntities(entities) == Prepended(EraseEmbeddeds(result), EmbeddedEntities(entities[i..]))
      {
        EmbeddedEntitiesStep(entities, i);
        var isLink :- IsEmbeddedLinkEntity(entities[i]);
        if !isLink {
          var embeddedEntity :- DeserializeEmbeddedEntity(entities[i]);
          PrependedAssoc(EraseEmbeddeds(result), [EraseEmbedded(embeddedEntity)], EmbeddedEntities(entities[i + 1..]));
          EraseEmbeddedsAppend(result, embeddedEntity);
          result := result + [embeddedEntity];
        }
        i := i + 1;
      }
      assert entities[i..] == [] && EraseEmbeddeds(result) + [] == EraseEmbeddeds(result);
      r := Ok(result);
    }
  }
}
