/** A candidate as the AI services pass it around: a dictionary whose keys
    may be missing. The profile finder fills name, URL, headline and
    (for search hits) title; scoring also reads `experience_years`. */
module Candidates {
  import opened Wrappers

  datatype Candidate = Candidate(name: Option<string>, linkedinUrl: Option<string>, headline: Option<string>,
                                 title: Option<string>, experienceYears: Option<int>)
}
