/** The workout detail the plan screen fetches by id (`BaseModels.Response.Workout`).
    Only the fields the plan presenter reads are kept. */
module BaseModels {
  import opened Optional

  datatype Video = Video(link: Option<string>, thumbnail: Option<string>, duration: Option<int>)

  datatype Workout = Workout(
    id: Option<string>,
    title: Option<string>,
    video: Option<Video>,
    equipments: Option<seq<string>>,
    calories: Option<int>)

  /** The id of a workout, absent when the workout or its id is. */
  function IdOf(w: Option<Workout>): (r: Option<string>)
    ensures w.None? ==> r.None?
    ensures w.Some? ==> r == w.value.id
  {
    if w.Some? then w.value.id else None
  }

  /** The title of a workout, or "" when the workout or its title is missing. */
  function TitleOf(w: Option<Workout>): (r: string)
    ensures w.Some? && w.value.title.Some? ==> r == w.value.title.value
    ensures w.None? || w.value.title.None? ==> r == ""
  {
    if w.Some? then w.value.title.GetOr("") else ""
  }

  /** The video thumbnail address, or "" when anything on the way is missing. */
  function ThumbnailOf(w: Option<Workout>): (r: string)
    ensures r != "" ==> w.Some? && w.value.video.Some? && w.value.video.value.thumbnail == Some(r)
  {
    if w.Some? && w.value.video.Some? then w.value.video.value.thumbnail.GetOr("") else ""
  }

  /** The video address, or "" when anything on the way is missing. */
  function LinkOf(w: Option<Workout>): (r: string)
    ensures r != "" ==> w.Some? && w.value.video.Some? && w.value.video.value.link == Some(r)
  {
    if w.Some? && w.value.video.Some? then w.value.video.value.link.GetOr("") else ""
  }

  /** The video length in seconds, when the workout has a video that states one. */
  function DurationOf(w: Option<Workout>): (r: Option<int>)
    ensures r.Some? ==> w.Some? && w.value.video.Some? && w.value.video.value.duration == r
  {
    if w.Some? && w.value.video.Some? then w.value.video.value.duration else None
  }

  /** The equipment list, empty when the workout or its list is missing. */
  function EquipmentsOf(w: Option<Workout>): (r: seq<string>)
    ensures r != [] ==> w.Some? && w.value.equipments == Some(r)
  {
    if w.Some? then w.value.equipments.GetOr([]) else []
  }
}
