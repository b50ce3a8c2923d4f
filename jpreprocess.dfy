/** The Japanese text analyser, seen from the binding: it is opened from a
    dictionary and then turns text into full-context labels. Both steps are
    external and supplied as pure functions. */
module Jpreprocess {
  import opened Wrappers
  import opened Hts

  /** An opened analyser: text to full-context labels, or the analysis error. */
  datatype Analyser = Analyser(extractFullcontext: string -> Result<seq<Label>, string>)

  /** `JPreprocess::from_config` with a system dictionary file and no user
      dictionary: the analyser for a dictionary path, or the load error. */
  datatype Library = Library(fromDictionary: string -> Result<Analyser, string>)
}
