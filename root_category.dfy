/** `rootCategory`: the root category of the project the user just backed. */
module RootCategoryResolver {
  import opened Wrappers
  import opened Models

  /** The category identifier the resolver asks the API for, if it asks at all:
      only when the project has a category and that category has no embedded parent. */
  function CategoryLookup(project: Project): (id: Option<int>)
    ensures id.Some? <==> project.category.Some? && project.category.value.parent.None?
    ensures id.Some? ==> id.value == project.category.value.rootId
  {
    match project.category
    case None => None
    case Some(c) => if c.parent.Some? then None else Some(c.rootId)
  }

  /** The root category the resolver emits, if any. `fetchCategory` gives the outcome of the
      API's category lookup for each identifier; a failure is swallowed. */
  function RootCategory(project: Project, fetchCategory: int -> Fetch<Category>): Option<Category>
  {
    match project.category
    case None => None
    case Some(c) =>
      match c.parent
      case Some(p) => Some(p)
      case None => fetchCategory(c.rootId).ToOption()
  }

  /** The three cases: no category gives nothing; an embedded parent is the answer;
      otherwise the answer is the lookup of the root identifier, or nothing if it failed. */
  lemma RootCategoryCases(project: Project, fetchCategory: int -> Fetch<Category>)
    ensures project.category.None? ==> RootCategory(project, fetchCategory) == None
    ensures project.category.Some? && project.category.value.parent.Some? ==>
      RootCategory(project, fetchCategory) == project.category.value.parent
    ensures CategoryLookup(project).Some? ==>
      var outcome := fetchCategory(CategoryLookup(project).value);
      RootCategory(project, fetchCategory) == (if outcome.Ok? then Some(outcome.value) else None)
  {
  }

  /** No remote call is made unless `CategoryLookup` names one: when it does not, the result
      is the same whatever the API would have answered. */
  lemma RootCategoryNeedsNoFetch(project: Project, f: int -> Fetch<Category>, g: int -> Fetch<Category>)
    requires CategoryLookup(project).None?
    ensures RootCategory(project, f) == RootCategory(project, g)
  {
  }

  /** A failed lookup is never an error: it produces nothing, and only then does a project
      that has a category produce nothing. */
  lemma RootCategoryAbsentOnlyOnFailure(project: Project, fetchCategory: int -> Fetch<Category>)
    requires project.category.Some?
    ensures RootCategory(project, fetchCategory).None? <==>
      CategoryLookup(project).Some? && fetchCategory(CategoryLookup(project).value).Failed?
  {
  }
}
