/** Vocabulary shared by every component of the model. */
module Common {
  /** Identifiers are drawn fresh by the program and ordered by their text; only identity and order matter. */
  type Uuid = nat

  datatype Option<+T> = None | Some(value: T)

  datatype Skill = Listening | Reading | Writing | Speaking {
    /** Skills graded by a background assessment instead of an answer key. */
    predicate Assessed() { Writing? || Speaking? }
  }

  const SKILLS: seq<Skill> := [Listening, Reading, Writing, Speaking]

  // The job tables of assessments and transcriptions follow the same limits, in milliseconds.
  const MAX_CLAIMS := 3
  const FIRST_BACKOFF := 10_000
  const LATER_BACKOFF := 60_000
  const LEASE := 120_000

  /** ASCII white space. */
  predicate IsSpace(c: char) { c == ' ' || '\t' <= c <= '\r' }

  function TrimLeft(s: string): string { if s != "" && IsSpace(s[0]) then TrimLeft(s[1..]) else s }

  function TrimRight(s: string): string
  {
    if s != "" && IsSpace(s[|s| - 1]) then TrimRight(s[..|s| - 1]) else s
  }

  /** The text without the white space around it. */
  function Trim(s: string): string { TrimRight(TrimLeft(s)) }
}
