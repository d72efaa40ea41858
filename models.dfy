/** The catalog entities the thanks screen reads. Their Java classes are not part of this model;
    only the attributes the screen consults are kept. */
module Models {
  import opened Wrappers

  /** A node of the category taxonomy. `parent` is the parent category when the API embeds
      it; `rootId` names the top-level ancestor either way. */
  datatype Category = Category(id: int, slug: string, parent: Option<Category>, rootId: int)

  /** A project, with the category it was launched in, if any. */
  datatype Project = Project(id: int, name: string, category: Option<Category>)

  /** The signed-in user: `gamesNewsletter` is a nullable Boolean in the source, `country`
      is the country code of the user's location, if known. */
  datatype User = User(id: int, gamesNewsletter: Option<bool>, country: Option<string>)

  /** `Category.root()`: the embedded parent when there is one, otherwise the category itself. */
  function Root(c: Category): Category
  {
    match c.parent
    case Some(p) => p
    case None => c
  }

  /** A catalog query. Each field is unset (`None`) unless the builder set it. */
  datatype DiscoveryParams = DiscoveryParams(
    backed: Option<int>,
    category: Option<Category>,
    perPage: Option<int>,
    recommended: Option<bool>,
    similarTo: Option<Project>,
    staffPicks: Option<bool>)

  /** `DiscoveryParams.builder().build()`: a query with nothing set. */
  const EmptyParams := DiscoveryParams(None, None, None, None, None, None)
}
