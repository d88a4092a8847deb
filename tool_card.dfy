/** The tool pop-up card (`tool-card.component.ts`): its star rating and the
    events its buttons and overlay emit.  The component keeps no state of its
    own, so each handler is a function of the `toolData` input and returns
    what it emits. */
module ToolCard {
  import opened Js

  /** `ToolCardData` */
  datatype ToolCardData = ToolCardData(
    name: string, description: string, url: Option<string>, category: string,
    categoryColor: string, popularity: real)

  /** `getStarRating()`: 0 without data or with a popularity of 0, else the
      popularity out of 100 scaled to five stars and rounded. */
  function GetStarRating(toolData: Option<ToolCardData>): (stars: int)
    ensures toolData.None? ==> stars == 0
    ensures toolData.Some? && toolData.value.popularity == 0.0 ==> stars == 0
  {
    if toolData.None? || toolData.value.popularity == 0.0 then 0
    else Round(toolData.value.popularity / 100.0 * 5.0)
  }

  /** The falsy-popularity guard changes nothing: every card is rated
      `round(popularity / 20)`. */
  lemma StarRatingIsRounded(d: ToolCardData)
    ensures GetStarRating(Some(d)) == Round(d.popularity / 20.0)
  {
  }

  /** A popularity in 0..100 gives 0..5 stars. */
  lemma StarRatingBounds(d: ToolCardData)
    requires 0.0 <= d.popularity <= 100.0
    ensures 0 <= GetStarRating(Some(d)) <= 5
  {
    StarRatingIsRounded(d);
  }

  /** A more popular tool never has fewer stars. */
  lemma StarRatingMonotone(d: ToolCardData, e: ToolCardData)
    requires d.popularity <= e.popularity
    ensures GetStarRating(Some(d)) <= GetStarRating(Some(e))
  {
    StarRatingIsRounded(d);
    StarRatingIsRounded(e);
  }

  /** `onVisitTool()`: the card's URL is emitted when it is truthy. */
  function OnVisitTool(toolData: Option<ToolCardData>): (emitted: Option<string>)
    ensures emitted.Some? <==> toolData.Some? && Truthy(toolData.value.url)
    ensures emitted.Some? ==> emitted == toolData.value.url
  {
    if toolData.Some? && Truthy(toolData.value.url) then toolData.value.url else None
  }

  /** `onShare()`: the card's data is emitted when there is some. */
  function OnShare(toolData: Option<ToolCardData>): (emitted: Option<ToolCardData>)
    ensures emitted.Some? <==> toolData.Some?
    ensures emitted.Some? ==> emitted == toolData
  {
    if toolData.Some? then toolData else None
  }

  /** `onOverlayClick(event)`: the card closes only for a click on the overlay
      itself, not on anything inside it (elements are named by identity). */
  function OnOverlayClick(target: nat, currentTarget: nat): (closes: bool)
    ensures closes <==> target == currentTarget
  {
    target == currentTarget
  }
}
