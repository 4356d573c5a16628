/**
 * The shared record types of lib/types.ts that the members page and the
 * member card work on. Social links are URLs the cards only render and are
 * not kept.
 */
module Types {

  /** A skill and its self-assessed percentage (a JavaScript number, modelled as an integer). */
  datatype Skill = Skill(name: string, percentage: int)

  /** A team member as the members page lists it and the member card shows it. */
  datatype Member = Member(
    id: nat,
    name: string,
    username: string,
    role: string,
    avatar: string,
    description: string,
    skills: seq<Skill>,
    projects: nat,
    experience: string)

  /** `TEAM_ROLES` of lib/constants.ts: the role tabs, `"All"` first. */
  const TEAM_ROLES: seq<string> := ["All", "Designer", "Developer", "Marketing", "Project Manager"]
}
