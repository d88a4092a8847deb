/** The JSON shapes the client receives from the catalogue service
    (`src/app/services/api.service.ts`). */
module Api {
  import opened Js

  /** A tool leaf of `/api/sunburst-data`. */
  datatype SunburstTool = SunburstTool(
    name: string, description: string, url: string, value: int, id: string, color: string)

  /** A category ring of `/api/sunburst-data`. */
  datatype SunburstCategory = SunburstCategory(
    name: string, description: string, color: string, id: string, children: seq<SunburstTool>)

  datatype SunburstData = SunburstData(name: string, children: seq<SunburstCategory>)

  /** The `type` discriminator of a search result. */
  datatype ResultType = CategoryType | ToolType

  /** One entry of `/api/search`, with the optional fields the client reads. */
  datatype SearchResult = SearchResult(
    kind: ResultType,
    id: string,
    name: string,
    description: string,
    url: Option<string>,
    category: Option<string>,
    categoryId: Option<string>,
    categoryColor: Option<string>,
    color: Option<string>)
}
