/** The entities of types.ts. */
module Types {

  /** The four project contexts; each carries the string value of the enum member. */
  datatype BriefContext = Freelance | School | Internal | Personal

  /** The enum member's string value, the text that `${context}` interpolates. */
  function Label(c: BriefContext): (s: string)
    ensures |s| > 0
  {
    match c
    case Freelance => "Freelance Client"
    case School => "School Project"
    case Internal => "Internal Team"
    case Personal => "Personal Project"
  }

  /** Distinct contexts have distinct labels, already told apart by their first character. */
  lemma LabelsDiffer(c1: BriefContext, c2: BriefContext)
    requires c1 != c2
    ensures Label(c1)[0] != Label(c2)[0]
  {
  }

  /** The three constraint categories of a brief. */
  datatype Constraints = Constraints(technical: seq<string>, timeline: seq<string>, budget: seq<string>)

  /** The structured brief the service returns. */
  datatype StructuredBrief = StructuredBrief(
    summary: string,
    objectives: seq<string>,
    targetAudience: string,
    deliverables: seq<string>,
    constraints: Constraints,
    ambiguities: seq<string>,
    assumptions: seq<string>,
    risks: seq<string>)

  /** 'idle' | 'loading' | 'success' | 'error' */
  datatype ProcessingStatus = Idle | Loading | Success | Error
}
