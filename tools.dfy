/** The agent's tools: the PDF search tool, whose function formats what the
    retriever returns, and the list of tools handed to the agent. */
module Tools {
  import opened Base
  import opened Text

  /** A retrieved document: its `page_content` when it has that attribute,
      and what `str(doc)` gives. */
  datatype Doc = Doc(pageContent: Option<string>, repr: string)

  /** What `retriever.invoke(query)` did: the documents in retrieval order, or the
      text of the exception it raised. The retriever itself (similarity search
      over the vector store) is a collaborator, so it is a parameter. */
  datatype Retrieval = Retrieved(docs: seq<Doc>) | RetrievalFailed(error: string)

  const NoResults: string := "No relevant information found in the PDF notes."
  const Separator: string := "\n\n"
  const ErrorPrefix: string := "Error searching PDF: "

  /** The text a document contributes to the reply. */
  function DocText(d: Doc): string {
    match d.pageContent
    case Some(c) => c
    case None => d.repr
  }

  /** What the search tool answers for a retrieval, case by case: the error text,
      the fixed "nothing found" text, or the first one or two documents' texts
      in retrieval order with a blank line between them. */
  function SearchReply(r: Retrieval): string {
    match r
    case RetrievalFailed(e) => ErrorPrefix + e
    case Retrieved(docs) =>
      if |docs| == 0 then NoResults
      else if |docs| == 1 then DocText(docs[0])
      else DocText(docs[0]) + Separator + DocText(docs[1])
  }

  /** `pdf_search`: collects every document's text in a list, then joins the
      first two of them. It never raises: a failed retrieval becomes its error text. */
  method PdfSearch(retriever: string -> Retrieval, query: string) returns (reply: string)
    ensures reply == SearchReply(retriever(query))
  {
    var retrieval := retriever(query);
    if retrieval.RetrievalFailed? {
      return ErrorPrefix + retrieval.error;
    }
    var docs := retrieval.docs;
    if |docs| == 0 {
      return NoResults;
    }
    var results: seq<string> := [];
    var i := 0;
    while i < |docs|
      invariant 0 <= i <= |docs|
      invariant |results| == i
      invariant forall k :: 0 <= k < i ==> results[k] == DocText(docs[k])
    {
      results := results + [DocText(docs[i])];
      i := i + 1;
    }
    var top := if |results| < 2 then results else results[..2];
    if |top| == 2 {
      assert top == [top[0]] + [top[1]];
      JoinAppend(Separator, [top[0]], [top[1]]);
    }
    reply := Join(Separator, top);
  }

  /** Only the first two documents are ever shown: two retrievals that agree on
      their first two documents get the same reply. */
  lemma OnlyFirstTwoShown(a: seq<Doc>, b: seq<Doc>)
    requires |a| >= 2 && |b| >= 2 && a[..2] == b[..2]
    ensures SearchReply(Retrieved(a)) == SearchReply(Retrieved(b))
  {
  }

  /** A single document is returned as its text alone, with no separator added. */
  lemma SingleDocAlone(d: Doc)
    ensures SearchReply(Retrieved([d])) == DocText(d)
  {
  }

  /** A reply with documents starts with the first document's text, so retrieval
      order is kept. */
  lemma FirstDocLeads(docs: seq<Doc>)
    requires |docs| >= 1
    ensures var r := SearchReply(Retrieved(docs));
      |DocText(docs[0])| <= |r| && r[..|DocText(docs[0])|] == DocText(docs[0])
  {
  }

  /** The tools the agent may call. */
  datatype Tool =
    | PdfSearchTool(name: string, description: string)
    | WebSearchTool(maxResults: nat, description: string)

  /** The retriever tool, named "PDF_Search". */
  const PdfTool: Tool := PdfSearchTool(
    "PDF_Search",
    "Search for information inside the uploaded PDF notes. Use this tool to answer questions based on the study material.")

  /** The Tavily web-search tool, configured for two results. */
  const WebTool: Tool := WebSearchTool(2, "Use this for searching the internet for current events or facts.")

  /** `create_tutor_tools`: the PDF tool always, then the web-search tool when
      `hasTavily` holds, that is when the Tavily import and the construction of
      its search tool both succeeded at module load. */
  method CreateTutorTools(hasTavily: bool) returns (tools: seq<Tool>)
    ensures |tools| == (if hasTavily then 2 else 1)
    ensures tools[0] == PdfTool && tools[0].name == "PDF_Search"
    ensures WebTool in tools <==> hasTavily
    ensures forall k :: 1 <= k < |tools| ==> tools[k] == WebTool
  {
    tools := [PdfTool];
    if hasTavily {
      tools := tools + [WebTool];
    }
  }
}
