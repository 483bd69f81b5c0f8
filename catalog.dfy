/**
 * The tool catalog of the tools router (server/routes/tools.js): a fixed,
 * ordered list of twelve tool records and the read-only queries the router
 * answers from it. Each query is stated for any catalog `cat`; the router
 * applies it to `Tools`.
 */
module Catalog {
  import opened Seqs
  import opened Text

  datatype Tool = Tool(
    id: string,
    name: string,
    description: string,
    icon: string,
    category: string,
    placeholderPrompt: string)

  /** The catalog, in the order in which the router lists it. */
  const Tools: seq<Tool> := [
    Tool(id := "explain-code", name := "Explain Code",
         description := "Get a clear explanation of what your code does",
         icon := "code", category := "Code Analysis",
         placeholderPrompt := "function calculateTotal(items) {\n  return items.reduce((sum, item) => sum + item.price, 0);\n}"),
    Tool(id := "fix-bug", name := "Fix Bug",
         description := "Identify and fix issues in your code",
         icon := "bug", category := "Debugging",
         placeholderPrompt := "function sortArray(arr) {\n  for(let i = 0; i < arr.length; i++) {\n    for(let j = 0; j < arr.length; j++) {\n      if(arr[i] < arr[j]) {\n        let temp = arr[i];\n        arr[i] = arr[j];\n        arr[j] = temp;\n      }\n    }\n  }\n}"),
    Tool(id := "generate-regex", name := "Generate Regex",
         description := "Create regular expressions for your needs",
         icon := "code-2", category := "Code Generation",
         placeholderPrompt := "Create a regex to validate email addresses"),
    Tool(id := "refactor-code", name := "Refactor Code",
         description := "Improve code quality and structure",
         icon := "layers", category := "Code Optimization",
         placeholderPrompt := "Refactor this function to be more readable and efficient:\nfunction processData(data) {\n  let result = [];\n  for (let i=0; i<data.length; i++) {\n    if (data[i].active) {\n      result.push({name: data[i].name, value: data[i].val * 2});\n    }\n  }\n  return result;\n}"),
    Tool(id := "generate-docs", name := "Generate Documentation",
         description := "Create documentation for your code",
         icon := "file-text", category := "Documentation",
         placeholderPrompt := "Create JSDoc documentation for this function:\nfunction calculateTax(amount, rate) {\n  return amount * (rate / 100);\n}"),
    Tool(id := "code-review", name := "Code Review",
         description := "Get feedback on your code quality",
         icon := "eye", category := "Code Quality",
         placeholderPrompt := "Review this code for best practices and potential issues:\nconst fetchData = async (url) => {\n  const res = await fetch(url);\n  return res.json();\n};"),
    Tool(id := "generate-unit-tests", name := "Generate Unit Tests",
         description := "Create test cases for your functions",
         icon := "test-tube", category := "Testing",
         placeholderPrompt := "Write unit tests for this function:\nfunction isPalindrome(str) {\n  const cleaned = str.toLowerCase().replace(/[^a-z0-9]/g, '');\n  return cleaned === cleaned.split('').reverse().join('');\n}"),
    Tool(id := "optimize-performance", name := "Optimize Performance",
         description := "Improve your code's efficiency",
         icon := "zap", category := "Performance",
         placeholderPrompt := "Optimize this code for better performance:\nfunction findDuplicates(arr) {\n  let duplicates = [];\n  for (let i = 0; i < arr.length; i++) {\n    for (let j = i + 1; j < arr.length; j++) {\n      if (arr[i] === arr[j] && !duplicates.includes(arr[i])) {\n        duplicates.push(arr[i]);\n      }\n    }\n  }\n  return duplicates;\n}"),
    Tool(id := "convert-language", name := "Convert Language",
         description := "Translate code between programming languages",
         icon := "languages", category := "Code Translation",
         placeholderPrompt := "Convert this Python code to JavaScript:\ndef fibonacci(n):\n    if n <= 1:\n        return n\n    return fibonacci(n-1) + fibonacci(n-2)"),
    Tool(id := "design-patterns", name := "Design Patterns",
         description := "Implement design patterns in your code",
         icon := "layout", category := "Architecture",
         placeholderPrompt := "Implement the Singleton pattern in JavaScript"),
    Tool(id := "security-audit", name := "Security Audit",
         description := "Identify security vulnerabilities",
         icon := "shield", category := "Security",
         placeholderPrompt := "Audit this code for security vulnerabilities:\napp.get('/user/:id', (req, res) => {\n  const userId = req.params.id;\n  const user = db.query(`SELECT * FROM users WHERE id = ${userId}`);\n  res.json(user);\n});"),
    Tool(id := "database-query", name := "Database Query Helper",
         description := "Generate and optimize database queries",
         icon := "database", category := "Database",
         placeholderPrompt := "Write an SQL query to find the top 5 customers by total purchase amount")
  ]

  predicate IdsUnique(cat: seq<Tool>) {
    forall i, j :: 0 <= i < j < |cat| ==> cat[i].id != cat[j].id
  }

  lemma CatalogIdsUnique()
    ensures IdsUnique(Tools)
  {
    assert forall i, j :: 0 <= i < j < |Tools| ==> Tools[i].id != Tools[j].id;
  }

  /** GET /: the whole catalog; its twelve ids are pairwise distinct. */
  function ListTools(): (r: seq<Tool>)
    ensures |r| == 12 && IdsUnique(r)
  {
    CatalogIdsUnique();
    Tools
  }

  /** The catalog's id column, in catalog order; the template table is stated against it. */
  function IdColumn(cat: seq<Tool>): (r: seq<string>)
    ensures |r| == |cat|
    ensures forall i :: 0 <= i < |cat| ==> r[i] == cat[i].id
  {
    seq(|cat|, i requires 0 <= i < |cat| => cat[i].id)
  }

  lemma CatalogIds()
    ensures IdColumn(Tools) == [
      "explain-code", "fix-bug", "generate-regex", "refactor-code",
      "generate-docs", "code-review", "generate-unit-tests", "optimize-performance",
      "convert-language", "design-patterns", "security-audit", "database-query"]
  {
  }

  /** GET /:id: the tool with that id, or None (the router answers 404). */
  function GetTool(cat: seq<Tool>, id: string): (r: Option<Tool>)
    ensures r.Some? ==> r.value in cat && r.value.id == id
    ensures r.None? <==> forall i :: 0 <= i < |cat| ==> cat[i].id != id
  {
    Find(cat, (t: Tool) => t.id == id)
  }

  /** With unique ids, a lookup finds the one tool that carries the id. */
  lemma GetToolUnique(cat: seq<Tool>, id: string, k: nat)
    requires IdsUnique(cat)
    requires k < |cat| && cat[k].id == id
    ensures GetTool(cat, id) == Some(cat[k])
  {
    var t := GetTool(cat, id).value;
    var i :| 0 <= i < |cat| && cat[i] == t;
    assert i == k;
  }

  /** `tools.map(tool => tool.category)`. */
  function CategoryColumn(cat: seq<Tool>): (r: seq<string>)
    ensures |r| == |cat|
    ensures forall i :: 0 <= i < |cat| ==> r[i] == cat[i].category
  {
    seq(|cat|, i requires 0 <= i < |cat| => cat[i].category)
  }

  /**
   * GET /categories: every category once, in order of first appearance in
   * the catalog.
   */
  function Categories(cat: seq<Tool>): (r: seq<string>)
    ensures NoDuplicates(r)
    ensures forall c :: c in r <==> c in CategoryColumn(cat)
    ensures forall c :: c in r <==> exists i :: 0 <= i < |cat| && cat[i].category == c
    ensures forall i, j :: 0 <= i < j < |r| ==>
              FirstIndex(CategoryColumn(cat), r[i]) < FirstIndex(CategoryColumn(cat), r[j])
  {
    var column := CategoryColumn(cat);
    assert forall c :: c in column <==> exists i :: 0 <= i < |cat| && cat[i].category == c;
    Distinct(column)
  }

  /** GET /category/:category: the tools whose category is exactly `c`, in catalog order. */
  function ByCategory(cat: seq<Tool>, c: string): (r: seq<Tool>)
    ensures forall t :: t in r <==> t in cat && t.category == c
    ensures forall t :: multiset(r)[t] == if t.category == c then multiset(cat)[t] else 0
    ensures IsSubsequence(r, cat)
  {
    var p := (t: Tool) => t.category == c;
    FilterMembers(cat, p);
    FilterIsSubsequence(cat, p);
    Filter(cat, p)
  }

  /** The same predicate stated by positions: an occurrence in the name or in the description. */
  ghost predicate OccursInNameOrDescription(t: Tool, query: string) {
    (exists i :: OccursAt(ToLower(t.name), ToLower(query), i))
    || (exists i :: OccursAt(ToLower(t.description), ToLower(query), i))
  }

  /**
   * The search predicate: the lower-cased query occurs in the lower-cased
   * name or description.
   */
  function MatchesQuery(t: Tool, query: string): (b: bool)
    ensures b <==> OccursInNameOrDescription(t, query)
  {
    var q := ToLower(query);
    IncludesIff(ToLower(t.name), q);
    IncludesIff(ToLower(t.description), q);
    Includes(ToLower(t.name), q) || Includes(ToLower(t.description), q)
  }

  lemma EmptyQueryMatches(t: Tool)
    ensures MatchesQuery(t, "")
  {
    EmptyIncludedEverywhere(ToLower(t.name));
  }

  /**
   * GET /search/:query: the tools, in catalog order, whose name or
   * description contains the query, ignoring the case of ASCII letters.
   */
  function Search(cat: seq<Tool>, query: string): (r: seq<Tool>)
    ensures forall t :: t in r <==> t in cat && OccursInNameOrDescription(t, query)
    ensures forall t :: multiset(r)[t] == if OccursInNameOrDescription(t, query) then multiset(cat)[t] else 0
    ensures IsSubsequence(r, cat)
    ensures query == "" ==> r == cat
  {
    var p := (t: Tool) => MatchesQuery(t, query);
    FilterMembers(cat, p);
    FilterIsSubsequence(cat, p);
    forall t: Tool ensures MatchesQuery(t, "") {
      EmptyQueryMatches(t);
    }
    Filter(cat, p)
  }

  /** Searching is insensitive to the case of the query. */
  lemma SearchIgnoresQueryCase(cat: seq<Tool>, query: string)
    ensures Search(cat, query) == Search(cat, ToLower(query))
  {
    ToLowerIdempotent(query);
    var p := (t: Tool) => MatchesQuery(t, query);
    var p' := (t: Tool) => MatchesQuery(t, ToLower(query));
    FilterCongruent(cat, p, p');
  }
}
