/** The titled card every feature is rendered in. Its heading gets an id built from the
    title, and the section points at the heading through `aria-labelledby`. */
module SectionContainer {
  import Text
  import Constants

  const TITLE_ID_PREFIX := "section-title-"

  /** The accessibility attributes of one rendered section. */
  datatype Attributes = Attributes(ariaLabelledBy: string, headingId: string)

  /** `title.replace(/\s+/g, '-').toLowerCase()`. */
  function Slug(title: string): (slug: string)
    ensures |slug| <= |title|
    ensures Text.NoSpace(slug)
    ensures forall i :: 0 <= i < |slug| ==> !Text.IsUpper(slug[i])
  {
    Text.ToLower(Text.ReplaceSpaceRuns(title, '-'))
  }

  /** `section-title-${slug}`. */
  function TitleId(title: string): (id: string)
    ensures |id| == |TITLE_ID_PREFIX| + |Slug(title)|
    ensures id[..|TITLE_ID_PREFIX|] == TITLE_ID_PREFIX
    ensures id[|TITLE_ID_PREFIX|..] == Slug(title)
  {
    TITLE_ID_PREFIX + Slug(title)
  }

  /** The section and its heading carry the same id, so the label reference always resolves. */
  function Render(title: string): (a: Attributes)
    ensures a.ariaLabelledBy == a.headingId == TITLE_ID_PREFIX + Slug(title)
  {
    Attributes(TitleId(title), TitleId(title))
  }

  /** A character of the title that is not white space is kept, lowercased. */
  lemma SlugOfNonSpace(c: char, rest: string)
    requires !Text.IsSpace(c)
    ensures Slug([c] + rest) == [Text.Lower(c)] + Slug(rest)
  {
    Text.ReplaceSpaceRunsCons(c, rest, '-');
    Text.ToLowerCons(c, Text.ReplaceSpaceRuns(rest, '-'));
  }

  /** A whole run of white space in the title becomes a single `-`. */
  lemma SlugOfSpaceRun(w: string, rest: string)
    requires w != [] && Text.IsBlank(w)
    requires rest == [] || !Text.IsSpace(rest[0])
    ensures Slug(w + rest) == "-" + Slug(rest)
  {
    Text.ReplaceSpaceRunsRun(w, rest, '-');
    Text.ToLowerCons('-', Text.ReplaceSpaceRuns(rest, '-'));
  }

  /** A title without white space only has its letters lowercased. */
  lemma SlugOfSingleWord(title: string)
    requires Text.NoSpace(title)
    ensures Slug(title) == Text.ToLower(title)
  {
  }
}
