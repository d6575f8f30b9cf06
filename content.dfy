/**
 * The resume record the templates render (the JSON shape the content generator
 * returns, or the dictionaries the edit form rebuilds) and the contact details.
 */
module Content {
  import opened Wrappers
  import opened Text

  /**
   * A text field of an experience or education entry as `entry.get(key, '')`
   * sees it: the key is missing, the key holds None, or it holds a string.
   */
  datatype Field = Absent | Null | Str(text: string)

  /**
   * What `f"{entry.get(key, '')}"` prints: nothing for a missing key, and the
   * word "None" for a key that holds None.
   */
  function Show(f: Field): string
  {
    match f
    case Absent => ""
    case Null => "None"
    case Str(t) => t
  }

  /** One work-history entry; achievements keep the producer's order. */
  datatype Experience = Experience(title: Field, company: Field, period: Field, achievements: seq<string>)

  datatype Education = Education(degree: Field, institution: Field, year: Field)

  /**
   * The resume content. `summary` is None when the key is missing or holds None;
   * the three lists are empty when their key is missing, None or an empty list,
   * since the templates only test them for truthiness before iterating.
   */
  datatype Resume = Resume(
    summary: Option<string>,
    skills: seq<string>,
    experience: seq<Experience>,
    education: seq<Education>)

  /**
   * The contact details. `name` is None only when the key is missing; the other
   * three are None when missing or None, which the templates treat alike.
   */
  datatype Person = Person(name: Option<string>, email: Option<string>, phone: Option<string>, location: Option<string>)

  /** Python truthiness of an optional string: present and non-empty. */
  predicate Truthy(v: Option<string>)
  {
    v.Some? && v.value != ""
  }

  /** `user_info.get('name', 'Your Name').upper()` */
  function NameText(p: Person): string
  {
    Upper(match p.name case None => "Your Name" case Some(n) => n)
  }

  /** `resume_data.get('summary', '')` as the always-present summary paragraphs print it. */
  function SummaryText(c: Resume): string
  {
    match c.summary case None => "" case Some(s) => s
  }
}
