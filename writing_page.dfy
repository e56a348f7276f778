/**
 * The editor (src/pages/WritingPage.jsx): a page whose state is the document being
 * written (id, category, title, content, keywords), two cached feedback lists, one per
 * tab, and the final-evaluation overlay. Its handlers are guarded state transitions;
 * the word count, the category label and the feedback normalisation are pure helpers.
 * Every backend reply is a parameter of the handler that receives it.
 */
module WritingPage {
  import opened Js
  import opened Text
  import WritingApi
  import MainPage
  import MyPage

  const TitlePlaceholder: string := "제목"
  const DefaultCategory: string := "essay"
  const LoadError: string := "문서를 불러오지 못했습니다."
  const EvaluationPending: string := "최종 평가를 불러오는 중..."

  // ---------------------------------------------------------------------------
  // Word count

  /** `content.trim().split(/\s+/).filter(word => word.length > 0)`. */
  function Words(content: string): seq<string> {
    NonEmpty(SplitOnSpaceRuns(Trim(content)))
  }

  function WordCount(content: string): nat {
    |Words(content)|
  }

  /** The word count is the number of maximal runs of non-white-space characters. */
  lemma WordCountIsRunCount(content: string)
    ensures WordCount(content) == CountRuns(content, false)
  {
    SplitRunsCount(Trim(content));
    CountRunsTrim(content);
  }

  /** Blank content, and only blank content, has no words. */
  lemma WordCountZero(content: string)
    ensures WordCount(content) == 0 <==> Trim(content) == ""
  {
    WordCountIsRunCount(content);
    if CountRuns(content, false) == 0 {
      CountRunsZero(content);
    } else if AllSpace(content) {
      CountRunsAllSpace(content, false);
    }
  }

  // ---------------------------------------------------------------------------
  // Category label

  /** `categoryMap` as written: "resume" maps to "RESUME" while "RESUME" maps to "Resume". */
  const CategoryLabels: map<string, string> := map[
    "resume" := "RESUME", "RESUME" := "Resume",
    "report" := "Report", "REPORT" := "Report",
    "essay" := "Essay", "ESSAY" := "Essay",
    "cover-letter" := "Cover Letter", "COVER_LETTER" := "Cover Letter"
  ]

  /** `getCategoryName`: the label above the editor, "Essay" for any id outside the map. */
  function CategoryName(categoryId: string): (r: string)
    ensures categoryId !in CategoryLabels ==> r == "Essay"
    ensures categoryId in CategoryLabels ==> r == CategoryLabels[categoryId]
    ensures r != ""
  {
    if categoryId in CategoryLabels && CategoryLabels[categoryId] != "" then CategoryLabels[categoryId] else "Essay"
  }

  /** The map is asymmetric in the resume entry, and only there. */
  lemma CategoryNameAsymmetric()
    ensures CategoryName("resume") == "RESUME" && CategoryName("RESUME") == "Resume"
    ensures CategoryName("report") == CategoryName("REPORT")
    ensures CategoryName("essay") == CategoryName("ESSAY")
    ensures CategoryName("cover-letter") == CategoryName("COVER_LETTER")
  {
  }

  /** A document opened from a section of the listing is labelled with that section's title;
      a category chosen on the catalog is labelled with the card's title, except the resume card. */
  lemma CategoryNameMatchesTitles()
    ensures forall k :: 0 <= k < |MyPage.Categories| ==>
      CategoryName(MyPage.Categories[k].id) == MyPage.Categories[k].title
    ensures forall k :: 1 <= k < |MainPage.Catalog| ==>
      CategoryName(MainPage.Catalog[k].id) == MainPage.Catalog[k].title
    ensures MainPage.Catalog[0].id == "resume" && CategoryName(MainPage.Catalog[0].id) != MainPage.Catalog[0].title
  {
  }

  /** `(category || "ESSAY").toUpperCase()`: the category the feedback request carries. */
  function RequestCategory(category: string): (r: string)
    ensures |r| == (if category == "" then 5 else |category|)
    ensures category == "" ==> r == "ESSAY"
    ensures category != "" ==> forall k :: 0 <= k < |category| ==> r[k] == UpperChar(category[k])
  {
    ToUpper(if category == "" then "ESSAY" else category)
  }

  /** Upper-casing keeps the hyphen, so a document whose category is "cover-letter" is sent for
      feedback as "COVER-LETTER", which is none of the listing's section ids (those spell it "COVER_LETTER"). */
  lemma CoverLetterRequestCategory()
    ensures |RequestCategory("cover-letter")| == 12 && RequestCategory("cover-letter")[5] == '-'
    ensures RequestCategory("cover-letter") != "COVER_LETTER"
    ensures !MyPage.IsCategoryId(RequestCategory("cover-letter"))
  {
    var r := RequestCategory("cover-letter");
    assert r[5] == UpperChar('-');
    assert "COVER_LETTER"[5] == '_';
  }

  // ---------------------------------------------------------------------------
  // Title placeholder

  /** `handleTitleFocus`: the placeholder is cleared on focus; any other text stays. */
  function TitleOnFocus(text: string): (r: string)
    ensures r == "" <==> text == TitlePlaceholder || text == ""
    ensures text != TitlePlaceholder ==> r == text
  {
    if text == TitlePlaceholder then "" else text
  }

  /** `handleTitleBlur`: blank text becomes the placeholder again; the result becomes the title. */
  function TitleOnBlur(text: string): (r: string)
    ensures r != ""
    ensures Trim(text) == "" ==> r == TitlePlaceholder
    ensures Trim(text) != "" ==> r == text
  {
    if Trim(text) == "" then TitlePlaceholder else text
  }

  /** `title === "제목" ? "" : title`: the title as it is saved. */
  function SavedTitle(title: string): (r: string)
    ensures r == "" <==> title == TitlePlaceholder || title == ""
    ensures title != TitlePlaceholder ==> r == title
  {
    if title == TitlePlaceholder then "" else title
  }

  /** Focusing and leaving the title without typing keeps any non-blank title, the placeholder
      included; the title saved after a blur is empty exactly when it was left blank or as the placeholder. */
  lemma TitleEditing(text: string)
    ensures Trim(text) != "" ==> TitleOnBlur(TitleOnFocus(text)) == text
    ensures SavedTitle(TitleOnBlur(text)) == "" <==> Trim(text) == "" || text == TitlePlaceholder
  {
    if text == TitlePlaceholder {
      assert !IsSpace(text[0]);
      assert Trim("") == "";
    }
  }

  // ---------------------------------------------------------------------------
  // Feedback payload

  /** What `payload.feedback` may hold: absent, an array, a string, or any other value. */
  datatype FeedbackPayload = Missing | Items(items: seq<string>) | Lines(text: string) | OtherValue

  /** The list shown for a payload: an array as it is, a string as its trimmed non-blank lines, anything else as nothing. */
  function NormalizeFeedback(p: FeedbackPayload): (r: seq<string>)
    ensures p.Items? ==> r == p.items
    ensures p.Missing? || p.OtherValue? ==> r == []
    ensures p.Lines? ==> forall i :: 0 <= i < |r| ==> r[i] != "" && IsTrimmed(r[i])
  {
    match p
    case Items(xs) => xs
    case Lines(s) => if s == "" then [] else TrimEachAllTrimmed(SplitOn(s, '\n')); NonEmpty(TrimEach(SplitOn(s, '\n')))
    case _ => []
  }

  /** Joined lines are non-empty when the first line is. */
  lemma JoinNonEmpty(lines: seq<string>, sep: char)
    requires |lines| >= 1 && lines[0] != ""
    ensures Join(lines, sep) != ""
  {
    if |lines| > 1 {
      assert Join(lines, sep) == lines[0] + [sep] + Join(lines[1..], sep);
    }
  }

  /** Feedback sent as one suggestion per line comes back as exactly those suggestions, in order. */
  lemma FeedbackLinesRoundTrip(lines: seq<string>)
    requires |lines| >= 1
    requires forall i :: 0 <= i < |lines| ==> lines[i] != "" && IsTrimmed(lines[i]) && '\n' !in lines[i]
    ensures NormalizeFeedback(Lines(Join(lines, '\n'))) == lines
  {
    var s := Join(lines, '\n');
    JoinNonEmpty(lines, '\n');
    SplitJoin(lines, '\n');
    TrimEachTrimmed(lines);
    NonEmptyKeepsAll(lines);
    calc {
      NormalizeFeedback(Lines(s));
      NonEmpty(TrimEach(SplitOn(s, '\n')));
      NonEmpty(TrimEach(lines));
      NonEmpty(lines);
    }
  }

  /** A string payload made of lines gives those lines trimmed, blank ones dropped, in order. */
  lemma LinesOfJoin(lines: seq<string>)
    requires |lines| >= 1
    requires forall i :: 0 <= i < |lines| ==> '\n' !in lines[i]
    ensures NormalizeFeedback(Lines(Join(lines, '\n'))) == NonEmpty(TrimEach(lines))
  {
    var s := Join(lines, '\n');
    if s == "" {
      assert lines == [""];
      assert Trim("") == "";
      assert TrimEach(lines) == [""];
    } else {
      SplitJoin(lines, '\n');
    }
  }

  /** A blank line anywhere in a string payload changes nothing. */
  lemma FeedbackIgnoresBlankLines(before: seq<string>, blank: string, after: seq<string>)
    requires |before + after| >= 1
    requires forall i :: 0 <= i < |before| ==> '\n' !in before[i]
    requires forall i :: 0 <= i < |after| ==> '\n' !in after[i]
    requires '\n' !in blank && AllSpace(blank)
    ensures NormalizeFeedback(Lines(Join(before + [blank] + after, '\n')))
         == NormalizeFeedback(Lines(Join(before + after, '\n')))
  {
    var withBlank := before + [blank] + after;
    NoSeparatorAppend(before, [blank]);
    NoSeparatorAppend(before + [blank], after);
    NoSeparatorAppend(before, after);
    LinesOfJoin(withBlank);
    LinesOfJoin(before + after);
    var tb, ta := TrimEach(before), TrimEach(after);
    TrimEachAppend(before + [blank], after);
    TrimEachAppend(before, [blank]);
    TrimEachAppend(before, after);
    assert Trim(blank) == "";
    assert TrimEach([blank]) == [""];
    assert TrimEach(withBlank) == (tb + [""]) + ta;
    calc {
      NormalizeFeedback(Lines(Join(withBlank, '\n')));
      NonEmpty((tb + [""]) + ta);
      { NonEmptyAppend(tb + [""], ta); }
      NonEmpty(tb + [""]) + NonEmpty(ta);
      { NonEmptyAppend(tb, [""]); assert NonEmpty([""]) == []; assert NonEmpty(tb) + [] == NonEmpty(tb); }
      NonEmpty(tb) + NonEmpty(ta);
      { NonEmptyAppend(tb, ta); }
      NonEmpty(TrimEach(before + after));
      NormalizeFeedback(Lines(Join(before + after, '\n')));
    }
  }

  /** Fields without the separator, concatenated, hold no separator. */
  lemma NoSeparatorAppend(x: seq<string>, y: seq<string>)
    requires forall i :: 0 <= i < |x| ==> '\n' !in x[i]
    requires forall i :: 0 <= i < |y| ==> '\n' !in y[i]
    ensures forall i :: 0 <= i < |x + y| ==> '\n' !in (x + y)[i]
  {
  }

  /** The `data` of a feedback reply. */
  datatype FeedbackData = FeedbackData(feedback: FeedbackPayload)

  /** A feedback reply: `{success, data, error}`. */
  datatype FeedbackResponse = FeedbackResponse(success: bool, data: Option<FeedbackData>, error: Option<string>)

  /** How a feedback call settles: a thrown error, a missing reply, or a reply; the list to show when it succeeded. */
  function FeedbackItems(reply: Outcome<Option<FeedbackResponse>>): (r: Option<seq<string>>)
    ensures r.Some? <==> reply.Returned? && reply.value.Some? && reply.value.value.success
    ensures r.Some? && reply.value.value.data.None? ==> r.value == []
    ensures r.Some? && reply.value.value.data.Some? ==> r.value == NormalizeFeedback(reply.value.value.data.value.feedback)
  {
    match reply
    case Threw(_) => None
    case Returned(None) => None
    case Returned(Some(res)) =>
      if !res.success then None
      else if res.data.None? then Some([])
      else Some(NormalizeFeedback(res.data.value.feedback))
  }

  // ---------------------------------------------------------------------------
  // The page

  /** The two feedback tabs. */
  datatype Tab = Sentence | Structure

  /** `feedbackType === "sentence" ? 1 : 0`. */
  function RequestType(tab: Tab): (r: int)
    ensures r == 1 <==> tab == Sentence
    ensures r == 0 <==> tab == Structure
  {
    match tab
    case Sentence => 1
    case Structure => 0
  }

  /** The router state the page was opened with (`location.state || {}`): every field may be absent. */
  datatype NavState = NavState(
    documentId: Option<Id>, category: Option<string>, title: Option<string>, content: Option<string>,
    keywords: Option<seq<string>>, description: Option<string>, topicDescription: Option<string>)

  const NoNavState: NavState := NavState(None, None, None, None, None, None, None)

  /** `stateData.description || stateData.topicDescription || ""`. */
  function Description(nav: NavState): string {
    OrElse(OrOption(nav.description, nav.topicDescription), "")
  }

  /** The `:docId` route parameter as an identifier, when it is truthy. */
  function RouteId(docId: Option<string>): (r: Option<Id>)
    ensures IdTruthy(r) <==> Truthy(docId)
    ensures r.Some? ==> docId.Some? && r == Some(Str(docId.value))
  {
    if Truthy(docId) then Some(Str(docId.value)) else None
  }

  /** The body of the feedback request. */
  datatype FeedbackRequest = FeedbackRequest(
    docId: Id, category: string, keywords: seq<string>, description: string, requestType: int, userText: string)

  /** How a click on the feedback button ends: refused with an alert, or a request sent. */
  datatype FeedbackStart = NothingToReview | NotSavedYet | Sent(request: FeedbackRequest)

  /** The fields of a document reply read by the page. */
  datatype DocFields = DocFields(
    title: Option<string>, content: Option<string>, category: Option<string>,
    docId: Option<Id>, documentId: Option<Id>, eval: Option<string>)

  /** A document reply: an optional `data` wrapper around the fields, or the fields themselves. */
  datatype DocReply = DocReply(data: Option<DocFields>, fields: DocFields)

  /** `res.data || res`. */
  function Payload(res: DocReply): DocFields {
    if res.data.Some? then res.data.value else res.fields
  }

  /** `payload.doc_id || payload.documentId || fallback`. */
  function ReplyId(p: DocFields, fallback: Option<Id>): (r: Option<Id>)
    ensures IdTruthy(p.docId) ==> r == p.docId
    ensures !IdTruthy(p.docId) && IdTruthy(p.documentId) ==> r == p.documentId
    ensures !IdTruthy(p.docId) && !IdTruthy(p.documentId) ==> r == fallback
    ensures IdTruthy(fallback) ==> IdTruthy(r)
  {
    IdOr(IdOr(p.docId, p.documentId), fallback)
  }

  /** The page's state, as one value. */
  datatype PageState = PageState(
    loading: bool, error: Option<string>, documentId: Option<Id>, category: string, title: string,
    content: string, keywords: seq<string>, tab: Tab, sentenceFeedback: seq<string>,
    structureFeedback: seq<string>, isLoadingFeedback: bool, finalEvaluation: string,
    showFinalEvaluation: bool)

  /** The right-hand panel. */
  datatype Panel =
    | Evaluation(text: string)
    | Suggestions(items: seq<string>)
    | SentenceHint
    | Sections(items: seq<string>)
    | StructureHint

  /** What the page renders. */
  datatype Screen =
    | LoadingScreen
    | ErrorScreen(message: string)
    | Editor(categoryLabel: string, wordCount: nat, canRequestFeedback: bool, panel: Panel)

  class WritingPage {
    const stateData: NavState
    const docId: Option<string>

    var loading: bool
    var error: Option<string>
    var documentId: Option<Id>
    var category: string
    var title: string
    var content: string
    var keywords: seq<string>
    var tab: Tab
    var sentenceFeedback: seq<string>
    var structureFeedback: seq<string>
    var isLoadingFeedback: bool
    var finalEvaluation: string
    var showFinalEvaluation: bool

    function State(): PageState
      reads this
    {
      PageState(loading, error, documentId, category, title, content, keywords, tab,
                sentenceFeedback, structureFeedback, isLoadingFeedback, finalEvaluation, showFinalEvaluation)
    }

    /** The category and the title are never empty: each is set from a value or its non-empty fallback. */
    ghost predicate Valid()
      reads this
    {
      category != "" && title != ""
    }

    /** The state at mount, from the router state and the route parameter. */
    constructor (nav: NavState, routeDocId: Option<string>)
      ensures Valid()
      ensures stateData == nav && docId == routeDocId
      ensures State() == PageState(
        Truthy(routeDocId), None, IdOr(nav.documentId, RouteId(routeDocId)),
        OrElse(nav.category, DefaultCategory), OrElse(nav.title, TitlePlaceholder), OrElse(nav.content, ""),
        if nav.keywords.Some? then nav.keywords.value else [],
        Sentence, [], [], false, "", false)
    {
      stateData := nav;
      docId := routeDocId;
      loading := Truthy(routeDocId);
      error := None;
      documentId := IdOr(nav.documentId, RouteId(routeDocId));
      category := OrElse(nav.category, DefaultCategory);
      title := OrElse(nav.title, TitlePlaceholder);
      content := OrElse(nav.content, "");
      keywords := if nav.keywords.Some? then nav.keywords.value else [];
      tab := Sentence;
      sentenceFeedback, structureFeedback := [], [];
      isLoadingFeedback := false;
      finalEvaluation := "";
      showFinalEvaluation := false;
    }

    /** `fetchDocument`: with a route id, read the document and take its fields, keeping the current
        category when the reply has none; a failure shows the error screen. */
    method LoadDocument(base: string, reply: Fetch<DocReply>) returns (request: Option<Request<DocFields>>)
      requires Valid()
      modifies this
      ensures Valid()
      ensures !Truthy(docId) ==> request == None && State() == old(State())
      ensures Truthy(docId) ==> request == Some(WritingApi.GetDocumentRequest(base, Str(docId.value)))
      ensures Truthy(docId) && WritingApi.Settle(WritingApi.GetDocument, reply).Threw? ==>
        State() == old(State()).(loading := false, error := Some(LoadError))
      ensures Truthy(docId) && WritingApi.Settle(WritingApi.GetDocument, reply).Returned? ==>
        var p := Payload(WritingApi.Settle(WritingApi.GetDocument, reply).value);
        State() == old(State()).(
          loading := false, error := None,
          title := OrElse(p.title, TitlePlaceholder), content := OrElse(p.content, ""),
          category := OrElse(p.category, old(category)),
          documentId := ReplyId(p, Some(Str(docId.value))))
    {
      if !Truthy(docId) {
        return None;
      }
      loading := true;
      error := None;
      request := Some(WritingApi.GetDocumentRequest(base, Str(docId.value)));
      var outcome := WritingApi.Settle(WritingApi.GetDocument, reply);
      match outcome {
        case Returned(res) =>
          var p := Payload(res);
          title := OrElse(p.title, TitlePlaceholder);
          content := OrElse(p.content, "");
          category := OrElse(p.category, category);
          documentId := ReplyId(p, Some(Str(docId.value)));
        case Threw(_) =>
          error := Some(LoadError);
      }
      loading := false;
    }

    /** `handleTitleBlur`: the title becomes the field's text, or the placeholder when that is blank. */
    method BlurTitle(text: string) returns (shown: string)
      requires Valid()
      modifies this
      ensures Valid()
      ensures shown == TitleOnBlur(text)
      ensures State() == old(State()).(title := shown)
    {
      ghost var before := State();
      shown := TitleOnBlur(text);
      title := shown;
      assert State() == before.(title := shown);
    }

    /** `handleContentChange`: new content; a shown evaluation is hidden as stale. */
    method ContentChange(value: string)
      requires Valid()
      modifies this
      ensures Valid()
      ensures State() == old(State()).(content := value, showFinalEvaluation := false)
    {
      content := value;
      if showFinalEvaluation {
        showFinalEvaluation := false;
      }
    }

    /** `handleContentKeyDown`: any key in the editor hides the evaluation. */
    method ContentKeyDown()
      requires Valid()
      modifies this
      ensures Valid()
      ensures State() == old(State()).(showFinalEvaluation := false)
    {
      if showFinalEvaluation {
        showFinalEvaluation := false;
      }
    }

    /** `handleFeedbackTypeChange`: switch tab and hide the evaluation. */
    method FeedbackTypeChange(newTab: Tab)
      requires Valid()
      modifies this
      ensures Valid()
      ensures State() == old(State()).(tab := newTab, showFinalEvaluation := false)
    {
      tab := newTab;
      showFinalEvaluation := false;
    }

    /** The first half of `handleRequestFeedback`: refuse blank content, then an unsaved document;
        otherwise mark feedback as loading and send the request. */
    method RequestFeedback() returns (start: FeedbackStart)
      requires Valid()
      modifies this
      ensures Valid()
      ensures Trim(old(content)) == "" ==> start == NothingToReview
      ensures Trim(old(content)) != "" && !IdTruthy(old(documentId)) ==> start == NotSavedYet
      ensures start.Sent? <==> Trim(old(content)) != "" && IdTruthy(old(documentId))
      ensures !start.Sent? ==> State() == old(State())
      ensures start.Sent? ==> State() == old(State()).(isLoadingFeedback := true)
      ensures start.Sent? ==>
        && start.request.docId == documentId.value
        && start.request.category == ToUpper(category)
        && start.request.keywords == keywords
        && start.request.description == Description(stateData)
        && (start.request.requestType == 1 <==> tab == Sentence)
        && (start.request.requestType == 0 <==> tab == Structure)
        && start.request.userText == content
    {
      ghost var before := State();
      if Trim(content) == "" {
        return NothingToReview;
      }
      if !IdTruthy(documentId) {
        return NotSavedYet;
      }
      isLoadingFeedback := true;
      assert State() == before.(isLoadingFeedback := true);
      start := Sent(FeedbackRequest(
        documentId.value, RequestCategory(category), keywords, Description(stateData),
        RequestType(tab), content));
    }

    /** The second half of `handleRequestFeedback`, once the reply to `request` settles: the list of the
        tab the request was made from is replaced and the evaluation hidden, or on failure both lists are
        cleared; the loading flag ends false either way. */
    method CompleteFeedback(request: FeedbackRequest, reply: Outcome<Option<FeedbackResponse>>) returns (failed: bool)
      requires Valid()
      modifies this
      ensures Valid()
      ensures !isLoadingFeedback
      ensures failed <==> FeedbackItems(reply).None?
      ensures failed ==>
        State() == old(State()).(sentenceFeedback := [], structureFeedback := [], isLoadingFeedback := false)
      ensures !failed && request.requestType == 1 ==>
        State() == old(State()).(sentenceFeedback := FeedbackItems(reply).value,
                                 showFinalEvaluation := false, isLoadingFeedback := false)
      ensures !failed && request.requestType != 1 ==>
        State() == old(State()).(structureFeedback := FeedbackItems(reply).value,
                                 showFinalEvaluation := false, isLoadingFeedback := false)
    {
      var items := FeedbackItems(reply);
      failed := items.None?;
      if failed {
        sentenceFeedback := [];
        structureFeedback := [];
      } else {
        if request.requestType == 1 {
          sentenceFeedback := items.value;
        } else {
          structureFeedback := items.value;
        }
        showFinalEvaluation := false;
      }
      isLoadingFeedback := false;
    }

    /** `handleSave`: save the document (creating it when it has no id yet), then adopt the id the
        reply carries, if any, switch to the sentence tab and show the returned evaluation.
        A failed save changes nothing. */
    method Save(base: string, reply: Fetch<DocReply>) returns (request: Request<WritingApi.SaveBody>, saved: bool)
      requires Valid()
      modifies this
      ensures Valid()
      ensures request == WritingApi.SaveRequest(base, WritingApi.SaveInput(
        old(documentId), SavedTitle(old(title)), old(content), old(category), old(keywords), Description(stateData)))
      ensures saved <==> WritingApi.Settle(WritingApi.SaveDocument, reply).Returned?
      ensures !saved ==> State() == old(State())
      ensures saved ==>
        var p := Payload(WritingApi.Settle(WritingApi.SaveDocument, reply).value);
        State() == old(State()).(
          documentId := ReplyId(p, old(documentId)), tab := Sentence,
          finalEvaluation := OrElse(p.eval, ""), showFinalEvaluation := true)
      ensures saved && IdTruthy(old(documentId)) ==> IdTruthy(documentId)
    {
      request := WritingApi.SaveRequest(base, WritingApi.SaveInput(
        documentId, SavedTitle(title), content, category, keywords, Description(stateData)));
      var outcome := WritingApi.Settle(WritingApi.SaveDocument, reply);
      saved := outcome.Returned?;
      if saved {
        var p := Payload(outcome.value);
        documentId := ReplyId(p, documentId);
        tab := Sentence;
        finalEvaluation := OrElse(p.eval, "");
        showFinalEvaluation := true;
      }
    }

    /** The right-hand panel: the evaluation overlay wins over both tabs; a tab shows its list, or a hint when it is empty. */
    function Panel(): (r: Panel)
      reads this
      ensures showFinalEvaluation ==> r.Evaluation? && r.text != ""
      ensures showFinalEvaluation && finalEvaluation != "" ==> r == Evaluation(finalEvaluation)
      ensures showFinalEvaluation && finalEvaluation == "" ==> r == Evaluation(EvaluationPending)
      ensures !showFinalEvaluation && tab == Sentence ==>
        (if sentenceFeedback != [] then r == Suggestions(sentenceFeedback) else r == SentenceHint)
      ensures !showFinalEvaluation && tab == Structure ==>
        (if structureFeedback != [] then r == Sections(structureFeedback) else r == StructureHint)
    {
      if showFinalEvaluation then Evaluation(OrElse(Some(finalEvaluation), EvaluationPending))
      else if tab == Sentence then
        (if |sentenceFeedback| > 0 then Suggestions(sentenceFeedback) else SentenceHint)
      else
        (if |structureFeedback| > 0 then Sections(structureFeedback) else StructureHint)
    }

    /** What the page renders: the loading text, the error, or the editor with its label, its word count,
        whether the feedback button is enabled, and the panel. */
    function Screen(): (r: Screen)
      reads this
      ensures loading ==> r == LoadingScreen
      ensures !loading && Truthy(error) ==> r == ErrorScreen(error.value)
      ensures r.Editor? <==> !loading && !Truthy(error)
      ensures r.Editor? ==> r.categoryLabel == CategoryName(category) && r.panel == Panel()
      ensures r.Editor? ==> r.wordCount == CountRuns(content, false)
      ensures r.Editor? ==> (r.canRequestFeedback <==> !isLoadingFeedback && Trim(content) != "")
    {
      if loading then LoadingScreen
      else if Truthy(error) then ErrorScreen(error.value)
      else
        WordCountIsRunCount(content);
        Editor(CategoryName(category), WordCount(content), !(isLoadingFeedback || Trim(content) == ""), Panel())
    }
  }

  /** A saved document (id 42) on the sentence tab: the request names the document, asks for sentence
      feedback on the whole content, and a reply with one suggestion shows exactly that suggestion. */
  method SentenceFeedbackScenario() returns (request: FeedbackRequest, shown: Panel)
    ensures request.requestType == 1 && request.docId == Num(42)
    ensures request.userText == "My thesis is that X causes Y."
    ensures shown == Suggestions(["Consider splitting this sentence."])
  {
    var page := new WritingPage(NavState(Some(Num(42)), None, None, None, None, None, None), None);
    var text := "My thesis is that X causes Y.";
    page.ContentChange(text);
    assert !IsSpace(text[0]);
    var start := page.RequestFeedback();
    request := start.request;
    var reply := Returned(Some(FeedbackResponse(true, Some(FeedbackData(Items(["Consider splitting this sentence."]))), None)));
    var failed := page.CompleteFeedback(request, reply);
    shown := page.Panel();
  }

  /** Saving a document that has no id creates it; once the reply names the new id, the next save
      updates that document, and feedback can be requested for it. */
  method SaveThenUpdateScenario(base: string) returns (first: Request<WritingApi.SaveBody>, second: Request<WritingApi.SaveBody>)
    ensures first.verb == POST && first.url == WritingApi.CollectionUrl(base)
    ensures second.verb == PUT && second.url == WritingApi.DocumentUrl(base, Num(7))
  {
    var page := new WritingPage(NoNavState, None);
    page.ContentChange("draft");
    var created := DocReply(None, DocFields(None, None, None, Some(Num(7)), None, Some("good")));
    var saved;
    first, saved := page.Save(base, Response(true, Parsed(created)));
    var updated := DocReply(None, DocFields(None, None, None, None, None, None));
    second, saved := page.Save(base, Response(true, Parsed(updated)));
  }
}
