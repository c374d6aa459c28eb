/** The typed Siren model the deserializer fills in: client objects, links,
    properties, actions with their parameter convention and file-upload
    configuration. Each `New...` function is the class's field initialisers;
    whatever the deserializer leaves alone keeps these defaults. Fields the
    deserializer copies straight from the raw document hold raw `Value`s,
    since nothing checks their types at run time. */
module SirenModel {
  import opened Values
  import opened Streams

  // ---------------------------------------------------------------------
  // Media types (the `MediaTypes` constants, distinct strings)

  const MediaTypeJson := "application/json"
  const MediaTypeFormData := "multipart/form-data"
  const MediaTypeOctetStream := "application/octet-stream"
  const MediaTypeSiren := "application/vnd.siren+json"

  // ---------------------------------------------------------------------
  // hypermedia-action.ts

  /** `HttpMethodTypes`; every member's value equals its key. */
  datatype HttpMethodTypes = GET | POST | PUT | DELETE | PATCH

  function MethodName(m: HttpMethodTypes): string {
    match m
    case GET => "GET"
    case POST => "POST"
    case PUT => "PUT"
    case DELETE => "DELETE"
    case PATCH => "PATCH"
  }

  /** `HttpMethodTypes[key]`: the member named `key`, if any. */
  function MethodByKey(key: string): (r: Option<HttpMethodTypes>)
    ensures r.Some? ==> MethodName(r.value) == key
    ensures forall m :: MethodName(m) == key ==> r == Some(m)
  {
    if key == "GET" then Some(GET)
    else if key == "POST" then Some(POST)
    else if key == "PUT" then Some(PUT)
    else if key == "DELETE" then Some(DELETE)
    else if key == "PATCH" then Some(PATCH)
    else None
  }

  /** `ActionType`, the parameter convention of an action. */
  datatype ActionType = NoParameters | JsonObjectParameters | FileUpload

  function ActionTypeValue(t: ActionType): string {
    match t
    case NoParameters => "none"
    case JsonObjectParameters => "application/json"
    case FileUpload => "multipart/form-data"
  }

  /** The three `ActionType` values are pairwise distinct. */
  lemma ActionTypeValuesDistinct(a: ActionType, b: ActionType)
    ensures ActionTypeValue(a) == ActionTypeValue(b) ==> a == b
  {
  }

  /** A file the caller attached to an upload action. */
  datatype File = File(name: string)

  datatype HypermediaAction = HypermediaAction(
    name: Value,
    classes: seq<Value>,
    httpMethod: HttpMethodTypes,  // `method`
    href: Value,
    title: Value,
    contentType: Value,           // `type`, the declared request content type
    fieldType: Value,
    actionType: ActionType,
    waheActionParameterName: Value,
    waheActionParameterClasses: Option<seq<Value>>,
    waheActionParameterJsonSchema: Option<Stream>,
    parameters: Value,
    defaultValues: Value,
    files: seq<File>,
    fileUploadConfiguration: FileUploadConfiguration)

  /** `new HypermediaAction()`. */
  function NewHypermediaAction(): (a: HypermediaAction)
    ensures a.httpMethod == GET && a.actionType == NoParameters
    ensures a.classes == [] && a.href == Str("") && a.title == Str("")
    ensures a.name == Undefined && a.contentType == Undefined && a.fieldType == Undefined
    ensures a.waheActionParameterName == Undefined && a.waheActionParameterClasses == None
    ensures a.waheActionParameterJsonSchema == None && a.parameters == Undefined && a.defaultValues == Undefined
    ensures a.files == [] && a.fileUploadConfiguration == NewFileUploadConfiguration()
  {
    HypermediaAction(
      Undefined, [], GET, Str(""), Str(""), Undefined, Undefined, NoParameters,
      Undefined, None, None, Undefined, Undefined, [], NewFileUploadConfiguration())
  }

  // ---------------------------------------------------------------------
  // file-upload-configuration.ts

  datatype FileUploadConfiguration = FileUploadConfiguration(
    maxFileSizeBytes: Value,
    allowMultiple: Value,
    accept: seq<string>)

  /** `new FileUploadConfiguration()`: no size limit (-1), a single file,
      no restriction on accepted types. */
  function NewFileUploadConfiguration(): (c: FileUploadConfiguration)
    ensures c.maxFileSizeBytes == Num(-1)
    ensures c.allowMultiple == Bool(false)
    ensures c.accept == []
  {
    FileUploadConfiguration(Num(-1), Bool(false), [])
  }

  /** `getAcceptString`: the accepted types joined with commas. */
  function GetAcceptString(c: FileUploadConfiguration): (r: string)
    ensures c.accept == [] ==> r == ""
    ensures |c.accept| == 1 ==> r == c.accept[0]
  {
    Join(c.accept, ',')
  }

  /** Setting `Accept` from `s.split(",")`, as the deserializer does, makes
      `getAcceptString` give back `s`. */
  lemma AcceptRoundTrip(c: FileUploadConfiguration, s: string)
    ensures GetAcceptString(c.(accept := Split(s, ','))) == s
  {
    JoinSplit(s, ',');
  }

  // ---------------------------------------------------------------------
  // Links, properties, entities

  /** `HypermediaLink(rel, href, type)`. */
  datatype HypermediaLink = HypermediaLink(relations: seq<Value>, href: Value, mediaType: Value)

  /** `PropertyTypes`. */
  datatype PropertyTypes = NullValue | Number | Boolean | String | Array | Object

  /** `PropertyInfo(name, value, type)`. */
  datatype PropertyInfo = PropertyInfo(name: string, value: Value, kind: PropertyTypes)

  datatype EmbeddedLinkEntity = EmbeddedLinkEntity(
    links: seq<HypermediaLink>,
    properties: seq<PropertyInfo>,
    embeddedLinkEntities: seq<Value>,
    embeddedEntities: seq<Value>,
    actions: seq<HypermediaAction>,
    relations: seq<Value>,
    href: Value,
    classes: seq<Value>,
    mediaType: Value,
    title: Value)

  /** `new EmbeddedLinkEntity()`. */
  function NewEmbeddedLinkEntity(): (e: EmbeddedLinkEntity)
    ensures e.href == Str("") && e.relations == [] && e.classes == []
    ensures e.mediaType == Str("") && e.title == Str("")
    ensures e.links == [] && e.properties == [] && e.actions == []
    ensures e.embeddedLinkEntities == [] && e.embeddedEntities == []
  {
    EmbeddedLinkEntity([], [], [], [], [], [], Str(""), [], Str(""), Str(""))
  }

  datatype SirenClientObject = SirenClientObject(
    classes: seq<Value>,
    links: seq<HypermediaLink>,
    properties: seq<PropertyInfo>,
    embeddedLinkEntities: seq<EmbeddedLinkEntity>,
    embeddedEntities: seq<EmbeddedEntity>,
    title: Value,
    actions: seq<HypermediaAction>)

  /** A fully embedded sub-entity: its relations and the entity itself. */
  datatype EmbeddedEntity = EmbeddedEntity(relations: seq<Value>, entity: SirenClientObject)

  /** `new SirenClientObject()`. */
  function NewSirenClientObject(): (o: SirenClientObject)
    ensures o.classes == [] && o.links == [] && o.properties == [] && o.actions == []
    ensures o.embeddedLinkEntities == [] && o.embeddedEntities == []
    ensures o.title == Str("")
  {
    SirenClientObject([], [], [], [], [], Str(""), [])
  }
}
