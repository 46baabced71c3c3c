/**
 * The table of corner-square style identifiers (the default export of
 * src/constants/cornerSquareTypes.ts) and the closed set of styles it names,
 * with an extra case for any other string a caller may configure.
 */
module CornerSquareTypes {

  /** The six styles of the table, and any other identifier. */
  datatype CornerSquareType =
    | Dot | Square | ExtraRounded | Style2 | Style3 | Style4
    | Other(name: string)

  /** The table as written: (property name, identifier), in declaration order. */
  const Table: seq<(string, string)> := [
    ("dot", "dot"),
    ("square", "square"),
    ("extraRounded", "extra-rounded"),
    ("style_2", "style_2"),
    ("style_3", "style_3"),
    ("style_4", "style_4")
  ]

  /** The six known styles, in the table's order. */
  const Known: seq<CornerSquareType> := [Dot, Square, ExtraRounded, Style2, Style3, Style4]

  /** The identifier string of a style. */
  function Name(t: CornerSquareType): string
  {
    match t
    case Dot => Table[0].1
    case Square => Table[1].1
    case ExtraRounded => Table[2].1
    case Style2 => Table[3].1
    case Style3 => Table[4].1
    case Style4 => Table[5].1
    case Other(n) => n
  }

  /** Object.values of the table: availableCornerSquareTypes. */
  function AvailableTypes(): (vs: seq<string>)
    ensures vs == ["dot", "square", "extra-rounded", "style_2", "style_3", "style_4"]
    ensures forall i, j | 0 <= i < j < |vs| :: vs[i] != vs[j]
    ensures Name(Dot) in vs
  {
    seq(|Table|, i requires 0 <= i < |Table| => Table[i].1)
  }

  /** Reads an identifier the way the dispatcher's switch compares it with
      the table's values (strict equality); anything else is Other. */
  function Parse(s: string): (t: CornerSquareType)
    ensures t.Other? <==> s !in AvailableTypes()
    ensures Name(t) == s
  {
    if s == Table[1].1 then Square
    else if s == Table[2].1 then ExtraRounded
    else if s == Table[0].1 then Dot
    else if s == Table[3].1 then Style2
    else if s == Table[4].1 then Style3
    else if s == Table[5].1 then Style4
    else Other(s)
  }

  /** A style value that Parse can produce: Other never carries a known name. */
  predicate Canonical(t: CornerSquareType)
  {
    t.Other? ==> t.name !in AvailableTypes()
  }

  /** Name and Parse are inverse on canonical styles. */
  lemma ParseName(t: CornerSquareType)
    requires Canonical(t)
    ensures Parse(Name(t)) == t
  {
  }

  /** The table has exactly six entries, its property names and its
      identifiers are pairwise distinct, and the known styles name them in order. */
  lemma TableShape()
    ensures |Table| == 6 && |Known| == 6
    ensures forall i, j | 0 <= i < j < |Table| :: Table[i].0 != Table[j].0 && Table[i].1 != Table[j].1
    ensures forall i | 0 <= i < |Known| :: Name(Known[i]) == Table[i].1
  {
  }

  /** Each property maps to its own name, except extraRounded, which maps to
      the hyphenated "extra-rounded". */
  lemma TableValues()
    ensures forall i | 0 <= i < |Table| :: (Table[i].1 == Table[i].0 <==> Table[i].0 != "extraRounded")
    ensures ("extraRounded", "extra-rounded") in Table
  {
  }

  /** Every known style's identifier is advertised. */
  lemma AvailableTypesAreKnownNames()
    ensures forall t | t in Known :: Name(t) in AvailableTypes()
  {
  }
}
