/**
 * The document client (src/api/writing.js): where each call goes, what its body
 * holds, and how a reply settles into a returned body or a thrown error.
 * The fetch itself is a parameter: every function takes what `fetch` gave.
 */
module WritingApi {
  import opened Js
  import Text

  /** The base URL when no `VITE_API_BASE_URL` is configured. */
  const DefaultBaseUrl: string := "http://localhost:8000"

  /** `import.meta.env.VITE_API_BASE_URL || "http://localhost:8000"`. */
  function BaseUrl(env: Option<string>): (r: string)
    ensures r != ""
    ensures Truthy(env) ==> r == env.value
    ensures !Truthy(env) ==> r == DefaultBaseUrl
  {
    OrElse(env, DefaultBaseUrl)
  }

  /** How an identifier prints inside a template literal. */
  function IdText(id: Id): string {
    match id
    case Num(n) => Text.IntToDecimal(n)
    case Str(s) => s
  }

  const DocumentsPath: string := "/api/documents"

  /** `${API_BASE_URL}/api/documents`: where documents are created. */
  function CollectionUrl(base: string): string {
    base + DocumentsPath
  }

  /** `${API_BASE_URL}/api/documents/${documentId}`: one document. */
  function DocumentUrl(base: string, id: Id): (r: string)
    ensures r == CollectionUrl(base) + "/" + IdText(id)
  {
    base + DocumentsPath + "/" + IdText(id)
  }

  /** `${API_BASE_URL}/api/documents/my-documents`. */
  function MyDocumentsUrl(base: string): string {
    base + DocumentsPath + "/my-documents"
  }

  /** The five calls of the client; each has its own failure message. */
  datatype Call = CreateNewDocument | GetDocument | GetMyDocuments | SaveDocument | FinalEvaluation

  function FailureMessage(c: Call): string {
    match c
    case CreateNewDocument => "글 작성 요청 실패"
    case GetDocument => "글 불러오기 실패"
    case GetMyDocuments => "글 목록 불러오기 실패"
    case SaveDocument => "글 저장 실패"
    case FinalEvaluation => "최종 평가 요청 실패"
  }

  /**
   * What every call does with the reply: a non-OK status throws the call's fixed message,
   * an OK status returns the parsed body; a failed fetch or an unparseable body is rethrown
   * unchanged by the `catch` that only logs.
   */
  function Settle<T>(c: Call, reply: Fetch<T>): (r: Outcome<T>)
    ensures r.Returned? <==> reply.Response? && reply.ok && reply.body.Parsed?
    ensures r.Returned? ==> r.value == reply.body.value
    ensures reply.Response? && !reply.ok ==> r == Threw(Error(FailureMessage(c)))
    ensures reply.NetworkError? ==> r == Threw(reply.err)
    ensures reply.Response? && reply.ok && reply.body.Unparseable? ==> r == Threw(reply.body.parseError)
  {
    match reply
    case NetworkError(e) => Threw(e)
    case Response(ok, body) =>
      if !ok then Threw(Error(FailureMessage(c)))
      else match body
        case Unparseable(e) => Threw(e)
        case Parsed(v) => Returned(v)
  }

  /** The failure messages tell the calls apart: a thrown message identifies the call that failed. */
  lemma FailureMessagesDistinct(c1: Call, c2: Call)
    requires c1 != c2
    ensures FailureMessage(c1) != FailureMessage(c2)
  {
  }

  /** A thrown error of a non-OK reply depends only on the call, never on the body. */
  lemma NonOkIgnoresBody<T>(c: Call, b1: Body<T>, b2: Body<T>)
    ensures Settle(c, Response(false, b1)) == Settle(c, Response(false, b2))
    ensures Settle(c, Response(false, b1)).Threw?
  {
  }

  // ---------------------------------------------------------------------------
  // createNewDocument

  /** The argument of `createNewDocument`. */
  datatype NewDocument = NewDocument(
    category: Option<string>, title: Option<string>, keywords: Option<seq<string>>,
    description: Option<string>, topicDescription: Option<string>)

  /** The JSON body `createNewDocument` sends. */
  datatype CreateBody = CreateBody(
    category: Option<string>, title: Option<string>, keywords: Option<seq<string>>,
    description: Option<string>)

  function CreateRequest(base: string, data: NewDocument): (r: Request<CreateBody>)
    ensures r.verb == POST && r.url == CollectionUrl(base) && r.body.Some?
    ensures r.body.value.category == data.category
    ensures r.body.value.title == data.title
    ensures r.body.value.keywords == data.keywords
    ensures Truthy(data.topicDescription) ==> r.body.value.description == data.topicDescription
    ensures !Truthy(data.topicDescription) ==> r.body.value.description == data.description
  {
    Request(POST, CollectionUrl(base),
      Some(CreateBody(data.category, data.title, data.keywords,
                      OrOption(data.topicDescription, data.description))))
  }

  // ---------------------------------------------------------------------------
  // getDocument, getMyDocuments

  function GetDocumentRequest<B>(base: string, id: Id): (r: Request<B>)
    ensures r.verb == GET && r.url == DocumentUrl(base, id) && r.body == None
  {
    Request(GET, DocumentUrl(base, id), None)
  }

  function MyDocumentsRequest<B>(base: string): (r: Request<B>)
    ensures r.verb == GET && r.url == MyDocumentsUrl(base) && r.body == None
  {
    Request(GET, MyDocumentsUrl(base), None)
  }

  // ---------------------------------------------------------------------------
  // saveDocument

  /** The argument of `saveDocument`. */
  datatype SaveInput = SaveInput(
    documentId: Option<Id>, title: string, content: string, category: string,
    keywords: seq<string>, description: string)

  /** The JSON body `saveDocument` sends: title, content and category only. */
  datatype SaveBody = SaveBody(title: string, content: string, category: string)

  /** An update (PUT to the document) when there is a truthy id, a creation (POST to the collection) otherwise. */
  function SaveRequest(base: string, data: SaveInput): (r: Request<SaveBody>)
    ensures r.verb == PUT <==> IdTruthy(data.documentId)
    ensures r.verb == POST <==> !IdTruthy(data.documentId)
    ensures IdTruthy(data.documentId) ==> r.url == DocumentUrl(base, data.documentId.value)
    ensures !IdTruthy(data.documentId) ==> r.url == CollectionUrl(base)
    ensures r.body == Some(SaveBody(data.title, data.content, data.category))
  {
    var url := if IdTruthy(data.documentId) then DocumentUrl(base, data.documentId.value) else CollectionUrl(base);
    var verb := if IdTruthy(data.documentId) then PUT else POST;
    Request(verb, url, Some(SaveBody(data.title, data.content, data.category)))
  }

  /** The keywords and the description given to `saveDocument` never reach the request. */
  lemma SaveDropsKeywordsAndDescription(base: string, data: SaveInput, keywords: seq<string>, description: string)
    ensures SaveRequest(base, data) == SaveRequest(base, data.(keywords := keywords, description := description))
  {
  }

  /** An update is sent to the very URL from which `getDocument` reads that document back,
      and a creation to the URL `createNewDocument` posts to. */
  lemma SaveTargetsSameResource<B>(base: string, data: SaveInput, create: NewDocument)
    ensures IdTruthy(data.documentId) ==>
      SaveRequest(base, data).url == GetDocumentRequest<B>(base, data.documentId.value).url
    ensures !IdTruthy(data.documentId) ==>
      SaveRequest(base, data).url == CreateRequest(base, create).url
  {
  }
}
