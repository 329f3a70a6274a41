/** The database rows of the `links` and `analytics` tables (lib/supabase/types.ts).
    Timestamps are integer milliseconds; optional columns are `Option`s. */
module SupabaseTypes {
  import opened Common

  /** A row of `links`.  `tags` is a JSON column; every writer in the
      application stores an array of strings, which is what is modelled. */
  datatype DbLink = DbLink(
    id: string,
    createdAt: int,
    userId: string,
    destinationUrl: Option<string>,
    slug: Option<string>,
    tags: Option<seq<string>>,
    conversionTracking: Option<bool>,
    folder: Option<string>,
    description: Option<string>)

  /** A row of `analytics`: one recorded redirect. */
  datatype ClickRecord = ClickRecord(id: string, clickedAt: int, linkId: string)
}
