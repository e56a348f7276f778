/**
 * The "my documents" page (src/pages/MyPage.jsx): it loads the user's documents once,
 * refusing to ask without a stored access token, normalises each record, and shows
 * them grouped under four fixed categories.
 */
module MyPage {
  import opened Js
  import AuthApi

  /** The storage key the page reads the access token from. */
  const TokenKey: string := "access_token"

  const LoginRequired: string := "로그인이 필요합니다."
  const LoadFailed: string := "문서 정보를 불러오는 중 오류가 발생했습니다."

  /** One section of the page: a backend category id, its heading and its colour. */
  datatype CategoryTab = CategoryTab(id: string, title: string, color: string)

  /** The four sections, in the order the page shows them. */
  const Categories: seq<CategoryTab> := [
    CategoryTab("REPORT", "Report", "#4CAF50"),
    CategoryTab("ESSAY", "Essay", "#FFC107"),
    CategoryTab("RESUME", "Resume", "#2196F3"),
    CategoryTab("COVER_LETTER", "Cover Letter", "#F44336")
  ]

  predicate IsCategoryId(c: string) {
    c == "REPORT" || c == "ESSAY" || c == "RESUME" || c == "COVER_LETTER"
  }

  /** A document whose category is one of the four section ids. */
  predicate Listed(d: Doc) {
    d.category.Some? && IsCategoryId(d.category.value)
  }

  /** A document as the backend lists it. */
  datatype RawDoc = RawDoc(docId: Option<Id>, title: Option<string>, category: Option<string>, createdAt: Option<string>)

  /** A document as the page keeps it. */
  datatype Doc = Doc(id: Option<Id>, title: Option<string>, category: Option<string>, createdAt: Option<string>)

  function NormalizeDoc(d: RawDoc): Doc {
    Doc(d.docId, d.title, d.category, OrOption(d.createdAt, None))
  }

  /** `rawList.map(...)`: one record per raw document, in the same order, `doc_id` renamed to `id`,
      `created_at` to `createdAt` (null when it is missing or empty). */
  function NormalizeAll(raw: seq<RawDoc>): (r: seq<Doc>)
    ensures |r| == |raw|
    ensures forall i :: 0 <= i < |raw| ==>
      && r[i].id == raw[i].docId
      && r[i].title == raw[i].title
      && r[i].category == raw[i].category
      && r[i].createdAt == (if Truthy(raw[i].createdAt) then raw[i].createdAt else None)
  {
    if raw == [] then [] else [NormalizeDoc(raw[0])] + NormalizeAll(raw[1..])
  }

  /** The `data` of a listing reply: an array of documents, a falsy value, or some other truthy value. */
  datatype ListPayload = Docs(list: seq<RawDoc>) | FalsyValue | OtherValue

  /** What a reply turns into: the normalised documents, or `None` when the page shows its error.
      A missing or falsy `data` is an empty list; a truthy `data` that is not an array makes `map` throw. */
  function LoadedDocuments(reply: Fetch<Envelope<ListPayload>>): (r: Option<seq<Doc>>)
    ensures r.Some? <==>
      reply.Response? && reply.ok && reply.body.Parsed? && reply.body.value.data != Some(OtherValue)
    ensures r.Some? && reply.body.value.data.Some? && reply.body.value.data.value.Docs? ==>
      r.value == NormalizeAll(reply.body.value.data.value.list)
    ensures r.Some? && !(reply.body.value.data.Some? && reply.body.value.data.value.Docs?) ==>
      r.value == []
  {
    match reply
    case NetworkError(_) => None
    case Response(ok, body) =>
      if !ok then None
      else match body
        case Unparseable(_) => None
        case Parsed(res) =>
          match res.data
          case None => Some([])
          case Some(FalsyValue) => Some([])
          case Some(OtherValue) => None
          case Some(Docs(list)) => Some(NormalizeAll(list))
  }

  /** `localStorage.getItem("access_token")` when it is truthy. */
  function TokenOf(items: map<string, string>): (r: Option<string>)
    ensures r.Some? <==> TokenKey in items && items[TokenKey] != ""
    ensures r.Some? ==> r.value == items[TokenKey]
  {
    if TokenKey in items && items[TokenKey] != "" then Some(items[TokenKey]) else None
  }

  /** The listing request: a GET carrying the token as a bearer credential. */
  datatype ListRequest = ListRequest(url: string, authorization: string)

  /** `${import.meta.env.VITE_API_BASE_URL}/api/documents`: this page has no fallback base URL. */
  function ListUrl(env: Option<string>): string {
    (if env.Some? then env.value else "undefined") + "/api/documents"
  }

  // ---------------------------------------------------------------------------
  // Grouping

  /** `documents.filter(doc => doc.category === categoryId)`. */
  function ByCategory(docs: seq<Doc>, c: string): (r: seq<Doc>)
    ensures |r| <= |docs|
    ensures forall i :: 0 <= i < |r| ==> r[i].category == Some(c)
    ensures forall d :: d in r ==> d in docs
    ensures forall d :: d in docs && d.category == Some(c) ==> d in r
  {
    if docs == [] then []
    else (if docs[0].category == Some(c) then [docs[0]] else []) + ByCategory(docs[1..], c)
  }

  /** Filtering keeps the original order: it distributes over concatenation. */
  lemma {:induction false} ByCategoryAppend(a: seq<Doc>, b: seq<Doc>, c: string)
    ensures ByCategory(a + b, c) == ByCategory(a, c) + ByCategory(b, c)
  {
    if a != [] {
      assert (a + b)[1..] == a[1..] + b;
      ByCategoryAppend(a[1..], b, c);
    } else {
      assert a + b == b;
    }
  }

  /** The number of documents shown over the sections `tabs`. */
  function TotalInBuckets(docs: seq<Doc>, tabs: seq<CategoryTab>): nat {
    if tabs == [] then 0 else |ByCategory(docs, tabs[0].id)| + TotalInBuckets(docs, tabs[1..])
  }

  /** How many of `tabs` have the category `c`. */
  function TabsWith(tabs: seq<CategoryTab>, c: Option<string>): nat {
    if tabs == [] then 0 else (if c == Some(tabs[0].id) then 1 else 0) + TabsWith(tabs[1..], c)
  }

  lemma {:induction false} TotalAppend(a: seq<Doc>, b: seq<Doc>, tabs: seq<CategoryTab>)
    ensures TotalInBuckets(a + b, tabs) == TotalInBuckets(a, tabs) + TotalInBuckets(b, tabs)
  {
    if tabs != [] {
      ByCategoryAppend(a, b, tabs[0].id);
      TotalAppend(a, b, tabs[1..]);
    }
  }

  lemma {:induction false} TotalEmpty(tabs: seq<CategoryTab>)
    ensures TotalInBuckets([], tabs) == 0
  {
    if tabs != [] {
      TotalEmpty(tabs[1..]);
    }
  }

  lemma {:induction false} TotalSingle(d: Doc, tabs: seq<CategoryTab>)
    ensures TotalInBuckets([d], tabs) == TabsWith(tabs, d.category)
  {
    if tabs != [] {
      assert [d][1..] == [];
      TotalSingle(d, tabs[1..]);
    }
  }

  lemma TabsWithCons(tab: CategoryTab, rest: seq<CategoryTab>, c: Option<string>)
    ensures TabsWith([tab] + rest, c) == (if c == Some(tab.id) then 1 else 0) + TabsWith(rest, c)
  {
    assert ([tab] + rest)[1..] == rest;
  }

  /** Each category id names exactly one section; other categories name none. */
  lemma SectionsPerCategory(c: Option<string>)
    ensures TabsWith(Categories, c) == if c.Some? && IsCategoryId(c.value) then 1 else 0
  {
    var t := Categories;
    assert t == [t[0]] + ([t[1]] + ([t[2]] + ([t[3]] + [])));
    TabsWithCons(t[3], [], c);
    TabsWithCons(t[2], [t[3]] + [], c);
    TabsWithCons(t[1], [t[2]] + ([t[3]] + []), c);
    TabsWithCons(t[0], [t[1]] + ([t[2]] + ([t[3]] + [])), c);
  }

  /** Over the four sections, every document whose category is one of the four ids is shown
      exactly once, and a document with any other category is not shown at all. */
  lemma {:induction false} BucketTotal(docs: seq<Doc>)
    ensures TotalInBuckets(docs, Categories) == |docs| - Unlisted(docs)
  {
    if docs != [] {
      assert docs == [docs[0]] + docs[1..];
      TotalAppend([docs[0]], docs[1..], Categories);
      TotalSingle(docs[0], Categories);
      SectionsPerCategory(docs[0].category);
      BucketTotal(docs[1..]);
    } else {
      TotalEmpty(Categories);
    }
  }

  /** The number of documents whose category is not one of the four ids. */
  function Unlisted(docs: seq<Doc>): (n: nat)
    ensures n <= |docs|
  {
    if docs == [] then 0
    else (if Listed(docs[0]) then 0 else 1) + Unlisted(docs[1..])
  }

  /** When every category is one of the four ids, the section sizes add up to the number of documents. */
  lemma BucketSizesSum(docs: seq<Doc>)
    requires forall i :: 0 <= i < |docs| ==> Listed(docs[i])
    ensures TotalInBuckets(docs, Categories) == |docs|
  {
    NoneUnlisted(docs);
    BucketTotal(docs);
  }

  lemma {:induction false} NoneUnlisted(docs: seq<Doc>)
    requires forall i :: 0 <= i < |docs| ==> Listed(docs[i])
    ensures Unlisted(docs) == 0
  {
    if docs != [] {
      NoneUnlisted(docs[1..]);
    }
  }

  /** A document is shown in a section exactly when its category is that section's id,
      so it is in exactly one section when its category is one of the four, and in none otherwise. */
  lemma OneSectionPerDocument(docs: seq<Doc>, d: Doc)
    requires d in docs
    ensures forall t :: t in Categories ==> (d in ByCategory(docs, t.id) <==> d.category == Some(t.id))
    ensures !Listed(d) ==>
      forall t :: t in Categories ==> d !in ByCategory(docs, t.id)
  {
  }

  // ---------------------------------------------------------------------------
  // The page's state

  class ListingPage {
    var documents: seq<Doc>
    var loading: bool
    var error: Option<string>

    /** The state at mount: nothing loaded, loading, no error. */
    constructor ()
      ensures documents == [] && loading && error == None
    {
      documents, loading, error := [], true, None;
    }

    /** `loadDocuments`: the token is read from the store and the base URL from the environment;
        the reply is a parameter. */
    method LoadDocuments(storage: AuthApi.LocalStorage, env: Option<string>, reply: Fetch<Envelope<ListPayload>>)
      returns (request: Option<ListRequest>)
      modifies this
      ensures !loading
      ensures TokenOf(storage.items).None? ==>
        request == None && error == Some(LoginRequired) && documents == old(documents)
      ensures TokenOf(storage.items).Some? ==>
        request == Some(ListRequest(ListUrl(env), "Bearer " + TokenOf(storage.items).value))
      ensures TokenOf(storage.items).Some? && LoadedDocuments(reply).Some? ==>
        documents == LoadedDocuments(reply).value && error == old(error)
      ensures TokenOf(storage.items).Some? && LoadedDocuments(reply).None? ==>
        documents == old(documents) && error == Some(LoadFailed)
    {
      loading := true;
      var stored := storage.GetItem(TokenKey);
      if stored.None? || stored.value == "" {
        error := Some(LoginRequired);
        loading := false;
        request := None;
        return;
      }
      request := Some(ListRequest(ListUrl(env), "Bearer " + stored.value));
      var loaded := LoadedDocuments(reply);
      if loaded.Some? {
        documents := loaded.value;
        loading := false;
      } else {
        error := Some(LoadFailed);
        loading := false;
      }
    }

    /** `getDocumentsByCategory`: the loaded documents of one category, in loading order. */
    function DocumentsByCategory(categoryId: string): (r: seq<Doc>)
      reads this
      ensures forall i :: 0 <= i < |r| ==> r[i].category == Some(categoryId)
      ensures forall d :: d in documents ==> (d in r <==> d.category == Some(categoryId))
    {
      ByCategory(documents, categoryId)
    }
  }

  // ---------------------------------------------------------------------------
  // Login and listing share the token

  /** The key login writes is the key this page reads, so a token stored by a successful login
      lets the listing go ahead with that very token. */
  lemma LoginTokenUnlocksListing(base: string, items: map<string, string>, reply: Fetch<Envelope<AuthApi.LoginData>>)
    requires AuthApi.LoginAttempt(base, reply).stored.Some?
    ensures TokenOf(items[AuthApi.AccessTokenKey := AuthApi.LoginAttempt(base, reply).stored.value])
         == AuthApi.LoginAttempt(base, reply).stored
  {
  }

  /** Logging in and then opening the page: the listing is requested with the stored token
      exactly when the login reply carried a truthy access token (starting from an empty store). */
  method LoginThenList(base: string, creds: AuthApi.Credentials, loginReply: Fetch<Envelope<AuthApi.LoginData>>,
                       env: Option<string>, listReply: Fetch<Envelope<ListPayload>>)
    returns (request: Option<ListRequest>)
    ensures request.Some? <==> AuthApi.LoginAttempt(base, loginReply).stored.Some?
    ensures request.Some? ==>
      request.value.authorization == "Bearer " + AuthApi.LoginAttempt(base, loginReply).stored.value
  {
    var storage := new AuthApi.LocalStorage(map[]);
    var _, _ := AuthApi.Login(storage, base, creds, loginReply);
    var page := new ListingPage();
    request := page.LoadDocuments(storage, env, listReply);
  }
}
