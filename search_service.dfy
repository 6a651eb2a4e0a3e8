/**
 * The search service: the requests behind commit search, code search and content search.
 * Commit and code search build their query first and then require credentials; content
 * search requires credentials first. A missing credential set is reported as a plain error,
 * not as the typed authentication error the other services raise.
 */
module SearchService {
  import opened Wrappers
  import opened Strings
  import opened Errors
  import Query
  import Transport

  const NoCredentials := "No Atlassian credentials available"
  const ContentNoCredentials := "Atlassian credentials are required for content search"

  // ---------------------------------------------------------------- commits

  datatype SearchCommitsParams = SearchCommitsParams(
    workspaceSlug: string, repoSlug: string, searchQuery: string,
    page: Option<int>, pageLen: Option<int>, fields: Option<string>)

  /** `message ~ "<query>"`; quotes inside the query are not escaped. */
  function CommitFilter(searchQuery: string): string
  {
    "message ~ \"" + searchQuery + "\""
  }

  function CommitsEntries(p: SearchCommitsParams): Query.Entries
  {
    [("q", if p.searchQuery != "" then Some(CommitFilter(p.searchQuery)) else None),
     ("page", Query.IntText(p.page)), ("pagelen", Query.IntText(p.pageLen)), ("fields", p.fields)]
  }

  function CommitsQuery(p: SearchCommitsParams): Query.Pairs
  {
    Query.Present(CommitsEntries(p))
  }

  /** The message filter is sent exactly when the query is non-empty, and wraps the query verbatim. */
  lemma CommitsQueryParameters(p: SearchCommitsParams)
    ensures Query.GetAll(CommitsQuery(p), "q") == if p.searchQuery != "" then [CommitFilter(p.searchQuery)] else []
    ensures Query.GetAll(CommitsQuery(p), "page") == if p.page.Some? && p.page.value != 0 then [IntToString(p.page.value)] else []
    ensures Query.GetAll(CommitsQuery(p), "pagelen") == if p.pageLen.Some? && p.pageLen.value != 0 then [IntToString(p.pageLen.value)] else []
    ensures Query.GetAll(CommitsQuery(p), "fields") == if Given(p.fields) then [p.fields.value] else []
  {
    var es := CommitsEntries(p);
    assert Query.DistinctNames(es) by {
      assert |"q"| != |"page"| && |"q"| != |"pagelen"| && |"q"| != |"fields"| && |"page"| != |"pagelen"|;
      assert "page"[0] != "fields"[0] && "pagelen"[0] != "fields"[0];
    }
    Query.PresentGetAll(es, 0);
    Query.PresentGetAll(es, 1);
    Query.PresentGetAll(es, 2);
    Query.PresentGetAll(es, 3);
  }

  method BuildCommitsQuery(p: SearchCommitsParams) returns (queryParams: Query.SearchParams)
    ensures fresh(queryParams)
    ensures queryParams.pairs == CommitsQuery(p)
  {
    var es := CommitsEntries(p);
    queryParams := new Query.SearchParams();
    assert es[..0] == [];
    Query.AppendIfGiven(queryParams, [], es, 0);
    Query.AppendIfGiven(queryParams, [], es, 1);
    Query.AppendIfGiven(queryParams, [], es, 2);
    Query.AppendIfGiven(queryParams, [], es, 3);
    assert es[..4] == es;
  }

  /** `searchCommits(params)`: the commits path of the repository, with `?` and the query only when it is non-empty. */
  method SearchCommits(config: Transport.Config, p: SearchCommitsParams) returns (r: Result<Transport.Call, Error>)
    ensures Transport.GetAtlassianCredentials(config).None? ==> r == Failure(PlainError(NoCredentials))
    ensures Transport.GetAtlassianCredentials(config).Some? ==>
      r == Success(Transport.Call(Transport.GetAtlassianCredentials(config).value,
        Query.WithQuery("/2.0/repositories/" + p.workspaceSlug + "/" + p.repoSlug + "/commits", CommitsQuery(p)),
        Transport.NoOptions))
  {
    var queryParams := BuildCommitsQuery(p);
    var credentials := Transport.GetAtlassianCredentials(config);
    if credentials.None? {
      return Failure(PlainError(NoCredentials));
    }
    var qs := queryParams.ToString();
    var base := "/2.0/repositories/" + p.workspaceSlug + "/" + p.repoSlug + "/commits";
    var path := base + (if qs != "" then "?" + qs else "");
    assert path == Query.WithQuery(base, CommitsQuery(p)) by {
      Query.SerializeEmptyIff(CommitsQuery(p));
    }
    return Success(Transport.Call(credentials.value, path, Transport.NoOptions));
  }

  // ---------------------------------------------------------------- code

  datatype SearchCodeParams = SearchCodeParams(
    workspaceSlug: string, searchQuery: string, page: Option<int>, pageLen: Option<int>,
    repoSlug: Option<string>, fields: Option<string>, language: Option<string>, extension: Option<string>)

  /** `languageMapping[name]`: the code search's name for an alternative language name. */
  function LanguageMapping(name: string): Option<string>
  {
    if name == "hcl" || name == "tf" then Some("terraform")
    else if name == "typescript" then Some("ts")
    else if name == "javascript" then Some("js")
    else if name == "python" then Some("py")
    else None
  }

  /** The language filter value: the lower-cased name, mapped when the table knows it. */
  function ApiLanguage(language: string): string
  {
    var lowered := ToLower(language);
    if LanguageMapping(lowered).Some? then LanguageMapping(lowered).value else lowered
  }

  /** The names the table maps to are lower-case and are not themselves keys of the table. */
  lemma MappedNameFinal(k: string)
    requires LanguageMapping(k).Some?
    ensures LanguageMapping(LanguageMapping(k).value).None?
    ensures ToLower(LanguageMapping(k).value) == LanguageMapping(k).value
  {
    var v := LanguageMapping(k).value;
    assert |"terraform"| !in {|"hcl"|, |"tf"|, |"typescript"|, |"javascript"|, |"python"|};
    assert "ts"[1] != "tf"[1] && "js"[0] != "tf"[0] && "py"[0] != "tf"[0];
    assert |"ts"| !in {|"hcl"|, |"typescript"|, |"javascript"|, |"python"|};
    if v == "terraform" {
      ToLowerOfLowerCase("terraform");
    } else if v == "ts" {
      ToLowerOfLowerCase("ts");
    } else if v == "js" {
      ToLowerOfLowerCase("js");
    } else {
      ToLowerOfLowerCase("py");
    }
  }

  /** The mapped names are final: mapping a mapped name again changes nothing, and the result is lower-case. */
  lemma ApiLanguageIdempotent(language: string)
    ensures ApiLanguage(ApiLanguage(language)) == ApiLanguage(language)
    ensures ToLower(ApiLanguage(language)) == ApiLanguage(language)
  {
    var lowered := ToLower(language);
    ToLowerIdempotent(language);
    if LanguageMapping(lowered).Some? {
      MappedNameFinal(lowered);
    }
  }

  /**
   * What `languageMapping[name]` reads on the object literal as written: its own keys first,
   * then the properties every object inherits. Of those, only `constructor` and `__proto__`
   * are spelled in lower case, so only they can be reached by a lower-cased name.
   */
  datatype PropertyValue = Own(text: string) | ObjectConstructor | ObjectPrototype | Missing

  function LanguageMappingAsWritten(name: string): (r: PropertyValue)
    ensures LanguageMapping(name).Some? ==> r == Own(LanguageMapping(name).value)
  {
    if LanguageMapping(name).Some? then Own(LanguageMapping(name).value)
    else if name == "constructor" then ObjectConstructor
    else if name == "__proto__" then ObjectPrototype
    else Missing
  }

  /** `String(Object)` and `String(Object.prototype)`. */
  const ObjectFunctionText := "function Object() { [native code] }"
  const ObjectPrototypeText := "[object Object]"

  /** `languageMapping[mapped] || mapped`, rendered by the template string as written. */
  function ApiLanguageAsWritten(language: string): string
  {
    var lowered := ToLower(language);
    match LanguageMappingAsWritten(lowered)
    case Own(text) => text
    case ObjectConstructor => ObjectFunctionText
    case ObjectPrototype => ObjectPrototypeText
    case Missing => lowered
  }

  /** Outside the two inherited names the lookup as written agrees with the table. */
  lemma ApiLanguageAsWrittenAgrees(language: string)
    requires ToLower(language) != "constructor" && ToLower(language) != "__proto__"
    ensures ApiLanguageAsWritten(language) == ApiLanguage(language)
  {
  }

  /** Any spelling of `constructor` is sent as the text of the `Object` function instead of passing through. */
  lemma ConstructorLanguage(language: string)
    requires ToLower(language) == "constructor"
    ensures ApiLanguageAsWritten(language) == ObjectFunctionText
    ensures ApiLanguage(language) == "constructor"
  {
    assert LanguageMapping("constructor").None? by {
      assert |"constructor"| !in {|"hcl"|, |"tf"|, |"typescript"|, |"javascript"|, |"python"|};
    }
  }

  /** Any spelling of `__proto__` is sent as `[object Object]` instead of passing through. */
  lemma ProtoLanguage(language: string)
    requires ToLower(language) == "__proto__"
    ensures ApiLanguageAsWritten(language) == ObjectPrototypeText
    ensures ApiLanguage(language) == "__proto__"
  {
    assert LanguageMapping("__proto__").None? by {
      assert |"__proto__"| !in {|"hcl"|, |"tf"|, |"typescript"|, |"javascript"|, |"python"|};
    }
    assert "__proto__" != "constructor" by {
      assert |"__proto__"| != |"constructor"|;
    }
  }

  /** Every spelling of a known alternative name maps to the search's name. */
  lemma ApiLanguageTable(language: string)
    ensures ToLower(language) in {"hcl", "tf"} ==> ApiLanguage(language) == "terraform"
    ensures ToLower(language) == "typescript" ==> ApiLanguage(language) == "ts"
    ensures ToLower(language) == "javascript" ==> ApiLanguage(language) == "js"
    ensures ToLower(language) == "python" ==> ApiLanguage(language) == "py"
    ensures LanguageMapping(ToLower(language)).None? ==> ApiLanguage(language) == ToLower(language)
  {
  }

  /** ` repo:{slug}` when a repository is given. */
  function RepoFilter(repoSlug: Option<string>): string
  {
    if Given(repoSlug) then " repo:" + repoSlug.value else ""
  }

  /** ` lang:{mapped}` when a language is given, with the lookup as written. */
  function LanguageFilter(language: Option<string>): string
  {
    if Given(language) then " lang:" + ApiLanguageAsWritten(language.value) else ""
  }

  /** ` ext:{extension}` when an extension is given. */
  function ExtensionFilter(extension: Option<string>): string
  {
    if Given(extension) then " ext:" + extension.value else ""
  }

  /** The search query: the query, then the repo, lang and ext filters for the parameters given. */
  function CodeSearchQuery(p: SearchCodeParams): string
  {
    p.searchQuery + RepoFilter(p.repoSlug) + LanguageFilter(p.language) + ExtensionFilter(p.extension)
  }

  /** Four pieces joined in order: the first is a prefix and each of the middle two occurs in the whole. */
  lemma FourParts(a: string, b: string, c: string, d: string)
    ensures StartsWith(a + b + c + d, a)
    ensures Contains(a + b + c + d, b) && Contains(a + b + c + d, c)
  {
    assert a + b + c + d == a + (b + c + d);
    ContainsAt(a, b, c + d);
    assert a + b + c + d == a + b + (c + d);
    ContainsAt(a + b, c, d);
    assert a + b + c + d == (a + b) + c + d;
  }

  /** The filters follow the query in the fixed order repo, lang, ext, each present only when its parameter is. */
  lemma CodeSearchQueryOrder(p: SearchCodeParams)
    ensures StartsWith(CodeSearchQuery(p), p.searchQuery)
    ensures !Given(p.repoSlug) && !Given(p.language) && !Given(p.extension) ==> CodeSearchQuery(p) == p.searchQuery
    ensures Given(p.repoSlug) && Given(p.language) && Given(p.extension) ==>
      CodeSearchQuery(p) == p.searchQuery + " repo:" + p.repoSlug.value + " lang:" + ApiLanguageAsWritten(p.language.value) + " ext:" + p.extension.value
    ensures Given(p.language) ==> Contains(CodeSearchQuery(p), " lang:" + ApiLanguageAsWritten(p.language.value))
    ensures Given(p.repoSlug) ==> Contains(CodeSearchQuery(p), " repo:" + p.repoSlug.value)
  {
    FourParts(p.searchQuery, RepoFilter(p.repoSlug), LanguageFilter(p.language), ExtensionFilter(p.extension));
    if Given(p.repoSlug) && Given(p.language) && Given(p.extension) {
      assert p.searchQuery + RepoFilter(p.repoSlug) + LanguageFilter(p.language) + ExtensionFilter(p.extension)
        == p.searchQuery + " repo:" + p.repoSlug.value + " lang:" + ApiLanguageAsWritten(p.language.value) + " ext:" + p.extension.value;
    }
  }

  function CodeEntries(p: SearchCodeParams): Query.Entries
  {
    [("page", Query.IntText(p.page)), ("pagelen", Query.IntText(p.pageLen)), ("fields", p.fields)]
  }

  /** `new URLSearchParams({ search_query })` followed by the optional appends. */
  function CodeQuery(p: SearchCodeParams): Query.Pairs
  {
    [("search_query", CodeSearchQuery(p))] + Query.Present(CodeEntries(p))
  }

  /** The search query is always the first pair, so the code search path always carries a query string. */
  lemma CodeQueryParameters(p: SearchCodeParams)
    ensures CodeQuery(p)[0] == ("search_query", CodeSearchQuery(p))
    ensures Query.GetAll(CodeQuery(p), "search_query") == [CodeSearchQuery(p)]
    ensures Query.GetAll(CodeQuery(p), "page") == if p.page.Some? && p.page.value != 0 then [IntToString(p.page.value)] else []
    ensures Query.GetAll(CodeQuery(p), "pagelen") == if p.pageLen.Some? && p.pageLen.value != 0 then [IntToString(p.pageLen.value)] else []
    ensures Query.Serialize(CodeQuery(p)) != ""
  {
    var es := CodeEntries(p);
    var head: Query.Pairs := [("search_query", CodeSearchQuery(p))];
    CodeEntriesNames(p);
    Query.GetAllConcat(head, Query.Present(es), "search_query");
    Query.GetAllConcat(head, Query.Present(es), "page");
    Query.GetAllConcat(head, Query.Present(es), "pagelen");
    Query.PresentAbsent(es, "search_query");
    Query.PresentGetAll(es, 0);
    Query.PresentGetAll(es, 1);
    Query.SerializeEmptyIff(CodeQuery(p));
  }

  lemma CodeEntriesNames(p: SearchCodeParams)
    ensures Query.DistinctNames(CodeEntries(p))
    ensures forall i :: 0 <= i < |CodeEntries(p)| ==> CodeEntries(p)[i].0 != "search_query"
    ensures Query.GetAll([("search_query", CodeSearchQuery(p))], "page") == []
    ensures Query.GetAll([("search_query", CodeSearchQuery(p))], "pagelen") == []
  {
    assert |"page"| != |"pagelen"| && "page"[0] != "fields"[0] && "pagelen"[0] != "fields"[0];
    assert "search_query"[0] != "page"[0] && "search_query"[0] != "fields"[0];
  }

  /** `searchCode(params)`: the workspace's code search path, always followed by `?` and the query. */
  method SearchCode(config: Transport.Config, p: SearchCodeParams) returns (r: Result<Transport.Call, Error>)
    ensures Transport.GetAtlassianCredentials(config).None? ==> r == Failure(PlainError(NoCredentials))
    ensures Transport.GetAtlassianCredentials(config).Some? ==>
      r == Success(Transport.Call(Transport.GetAtlassianCredentials(config).value,
        "/2.0/workspaces/" + p.workspaceSlug + "/search/code?" + Query.Serialize(CodeQuery(p)), Transport.NoOptions))
  {
    var finalSearchQuery := ComposeSearchQuery(p);
    var queryParams := new Query.SearchParams();
    queryParams.Append("search_query", finalSearchQuery);
    var es := CodeEntries(p);
    var pre := queryParams.pairs;
    assert es[..0] == [];
    Query.AppendIfGiven(queryParams, pre, es, 0);
    Query.AppendIfGiven(queryParams, pre, es, 1);
    Query.AppendIfGiven(queryParams, pre, es, 2);
    assert es[..3] == es;
    assert queryParams.pairs == CodeQuery(p);
    var credentials := Transport.GetAtlassianCredentials(config);
    if credentials.None? {
      return Failure(PlainError(NoCredentials));
    }
    var path := "/2.0/workspaces/" + p.workspaceSlug + "/search/code?" + queryParams.ToString();
    return Success(Transport.Call(credentials.value, path, Transport.NoOptions));
  }

  /** The `+=` steps that extend the search query. */
  method ComposeSearchQuery(p: SearchCodeParams) returns (finalSearchQuery: string)
    ensures finalSearchQuery == CodeSearchQuery(p)
  {
    var searchQuery := if Given(p.repoSlug) then p.searchQuery + " repo:" + p.repoSlug.value else p.searchQuery;
    ConcatAssoc(p.searchQuery, " repo:", if Given(p.repoSlug) then p.repoSlug.value else "");
    finalSearchQuery := searchQuery;
    if Given(p.language) {
      var mappedLanguage := ToLower(p.language.value);
      var apiLanguage;
      match LanguageMappingAsWritten(mappedLanguage) {
        case Own(text) => apiLanguage := text;
        case ObjectConstructor => apiLanguage := ObjectFunctionText;
        case ObjectPrototype => apiLanguage := ObjectPrototypeText;
        case Missing => apiLanguage := mappedLanguage;
      }
      ConcatAssoc(finalSearchQuery, " lang:", apiLanguage);
      finalSearchQuery := finalSearchQuery + " lang:" + apiLanguage;
    }
    assert finalSearchQuery == p.searchQuery + RepoFilter(p.repoSlug) + LanguageFilter(p.language);
    if Given(p.extension) {
      ConcatAssoc(finalSearchQuery, " ext:", p.extension.value);
      finalSearchQuery := finalSearchQuery + " ext:" + p.extension.value;
    }
  }

  // ---------------------------------------------------------------- content

  datatype ContentSearchParams = ContentSearchParams(
    workspaceSlug: string, repoSlug: Option<string>, query: string,
    limit: Option<int>, page: Option<int>, contentType: Option<string>)

  /** `n || fallback` for an optional number. */
  function OrDefault(n: Option<int>, fallback: int): int
  {
    if n.Some? && n.value != 0 then n.value else fallback
  }

  /** `q`, `pagelen` and `page` are always set; `content_type` only when truthy. */
  function ContentQuery(p: ContentSearchParams): Query.Pairs
  {
    [("q", p.query), ("pagelen", IntToString(OrDefault(p.limit, 25))), ("page", IntToString(OrDefault(p.page, 1)))]
      + Query.Present([("content_type", p.contentType)])
  }

  /** `/2.0/search/{workspace}`, or `/2.0/search/{workspace}/{repo}` when a repository is given. */
  function ContentPath(p: ContentSearchParams): string
  {
    if Given(p.repoSlug) then "/2.0/search/" + p.workspaceSlug + "/" + p.repoSlug.value else "/2.0/search/" + p.workspaceSlug
  }

  /** The page size and page number sent: the caller's when truthy, otherwise 25 and 1. */
  lemma ContentPaging(p: ContentSearchParams)
    ensures Query.GetAll(ContentQuery(p), "pagelen") == [IntToString(OrDefault(p.limit, 25))]
    ensures Query.GetAll(ContentQuery(p), "page") == [IntToString(OrDefault(p.page, 1))]
    ensures p.limit.None? || p.limit == Some(0) ==> Query.GetAll(ContentQuery(p), "pagelen") == ["25"]
    ensures p.page.None? || p.page == Some(0) ==> Query.GetAll(ContentQuery(p), "page") == ["1"]
  {
    ContentHead(p);
    DefaultTexts();
  }

  /** The query text is always sent, even when empty, and `content_type` only when truthy. */
  lemma ContentFilters(p: ContentSearchParams)
    ensures Query.GetAll(ContentQuery(p), "q") == [p.query]
    ensures Query.GetAll(ContentQuery(p), "content_type") == if Given(p.contentType) then [p.contentType.value] else []
  {
    ContentHead(p);
  }

  lemma DefaultTexts()
    ensures IntToString(25) == "25" && IntToString(1) == "1"
  {
    assert NatToString(2) == "2" && NatToString(1) == "1";
  }

  lemma ContentHead(p: ContentSearchParams)
    ensures var pagelen := IntToString(OrDefault(p.limit, 25));
      var page := IntToString(OrDefault(p.page, 1));
      && Query.GetAll(ContentQuery(p), "q") == [p.query]
      && Query.GetAll(ContentQuery(p), "pagelen") == [pagelen]
      && Query.GetAll(ContentQuery(p), "page") == [page]
      && Query.GetAll(ContentQuery(p), "content_type") == if Given(p.contentType) then [p.contentType.value] else []
  {
    var head := [("q", p.query), ("pagelen", IntToString(OrDefault(p.limit, 25))), ("page", IntToString(OrDefault(p.page, 1)))];
    var es := [("content_type", p.contentType)];
    assert "content_type"[0] != "q"[0] && "content_type"[0] != "page"[0] && |"pagelen"| != |"page"|;
    assert |"q"| != |"page"| && |"q"| != |"pagelen"|;
    HeadPairs("q", "pagelen", "page", p.query, IntToString(OrDefault(p.limit, 25)), IntToString(OrDefault(p.page, 1)), "content_type");
    Query.GetAllConcat(head, Query.Present(es), "q");
    Query.GetAllConcat(head, Query.Present(es), "pagelen");
    Query.GetAllConcat(head, Query.Present(es), "page");
    Query.GetAllConcat(head, Query.Present(es), "content_type");
    Query.PresentAbsent(es, "q");
    Query.PresentAbsent(es, "pagelen");
    Query.PresentAbsent(es, "page");
    Query.PresentGetAll(es, 0);
  }

  /** Three pairs with distinct names: each name has exactly its own value, any other name none. */
  lemma HeadPairs(a: string, b: string, c: string, x: string, y: string, z: string, other: string)
    requires a != b && a != c && b != c && other != a && other != b && other != c
    ensures Query.GetAll([(a, x), (b, y), (c, z)], a) == [x]
    ensures Query.GetAll([(a, x), (b, y), (c, z)], b) == [y]
    ensures Query.GetAll([(a, x), (b, y), (c, z)], c) == [z]
    ensures Query.GetAll([(a, x), (b, y), (c, z)], other) == []
  {
    var last: Query.Pairs := [(c, z)];
    var tail: Query.Pairs := [(b, y), (c, z)];
    assert last[1..] == [] && tail[1..] == last && [(a, x), (b, y), (c, z)][1..] == tail;
    assert Query.GetAll(last, c) == [z] && Query.GetAll(last, a) == [] && Query.GetAll(last, b) == [];
    assert Query.GetAll(last, other) == [];
    assert Query.GetAll(tail, c) == [z] && Query.GetAll(tail, b) == [y] && Query.GetAll(tail, a) == [];
    assert Query.GetAll(tail, other) == [];
  }

  /** `searchContent(params)`: credentials first, then the search path with its query. */
  method SearchContent(config: Transport.Config, p: ContentSearchParams) returns (r: Result<Transport.Call, Error>)
    ensures Transport.GetAtlassianCredentials(config).None? ==> r == Failure(PlainError(ContentNoCredentials))
    ensures Transport.GetAtlassianCredentials(config).Some? ==>
      r == Success(Transport.Call(Transport.GetAtlassianCredentials(config).value,
        ContentPath(p) + "?" + Query.Serialize(ContentQuery(p)), Transport.NoOptions))
  {
    var credentials := Transport.GetAtlassianCredentials(config);
    if credentials.None? {
      return Failure(PlainError(ContentNoCredentials));
    }
    var queryParams := BuildContentQuery(p);
    var url := "/2.0/search/" + p.workspaceSlug;
    if Given(p.repoSlug) {
      url := "/2.0/search/" + p.workspaceSlug + "/" + p.repoSlug.value;
    }
    url := url + "?" + queryParams.ToString();
    return Success(Transport.Call(credentials.value, url, Transport.NoOptions));
  }

  method BuildContentQuery(p: ContentSearchParams) returns (queryParams: Query.SearchParams)
    ensures fresh(queryParams)
    ensures queryParams.pairs == ContentQuery(p)
  {
    queryParams := new Query.SearchParams();
    queryParams.Set("q", p.query);
    assert |"pagelen"| != |"q"| && |"page"| != |"q"| && |"pagelen"| != |"page"|;
    queryParams.Set("pagelen", IntToString(OrDefault(p.limit, 25)));
    queryParams.Set("page", IntToString(OrDefault(p.page, 1)));
    var pre := queryParams.pairs;
    var es := [("content_type", p.contentType)];
    assert !Query.HasName(pre, "content_type") by {
      assert "content_type"[0] != "q"[0] && "content_type"[0] != "page"[0];
    }
    assert es[..0] == [];
    Query.SetIfGiven(queryParams, pre, es, 0);
    assert es[..1] == es;
  }
}
