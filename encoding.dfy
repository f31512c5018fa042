/**
 * The dataset encoder (`encoding_mapping` in model.py): it overwrites the
 * Price, Genre and Theme columns of the loaded table, in place, with small
 * integer codes, turning every cell it does not know into a missing value,
 * and hands back the very table it was given.
 */
module Encoding {
  import Wrappers
  import CategoryCodes

  /** A cell of the loaded table: text, a number, or missing (NaN). */
  datatype Cell = Text(s: string) | Number(v: real) | Missing

  /** The price brackets in the order of the source literal, cheapest first. */
  const PRICE_BRACKETS: seq<string> := ["free", "<$15", "$15-25", "$25-50", "$59.99", ">$60"]

  const ORDINAL_MAPPING: map<string, int> :=
    map["free" := 0, "<$15" := 1, "$15-25" := 2, "$25-50" := 3, "$59.99" := 4, ">$60" := 5]
  const GENRE_MAPPING: map<string, int> :=
    map["AA" := 11, "RP" := 12, "ST" := 13, "SM" := 14, "SR" := 15, "VN" := 16, "PG" := 17]
  const THEME_MAPPING: map<string, int> :=
    map["AN" := 0, "HR" := 1, "MY" := 2, "SF" := 3, "FN" := 4, "PA" := 5, "HS" := 6, "MD" := 7,
        "WA" := 8, "SH" := 9, "PG" := 10]

  /**
   * `Series.astype(str).map(table)` on one cell: a text the table knows becomes
   * its code, anything else becomes NaN (no table key is the text of a number,
   * nor the text `nan` of a missing cell).
   */
  function EncodeCell(cell: Cell, table: map<string, int>): (encoded: Cell)
    ensures !encoded.Text?
    ensures encoded.Number? <==> cell.Text? && cell.s in table
    ensures encoded.Number? ==> exists code :: code in table.Values && encoded.v == code as real
    ensures cell.Text? && cell.s in table ==> encoded == Number(table[cell.s] as real)
  {
    match cell
    case Text(s) => if s in table then assert table[s] in table.Values; Number(table[s] as real) else Missing
    case _ => Missing
  }

  /** A whole column through `astype(str).map(table)`. */
  function MapColumn(column: seq<Cell>, table: map<string, int>): (encoded: seq<Cell>)
    ensures |encoded| == |column|
  {
    seq(|column|, i requires 0 <= i < |column| => EncodeCell(column[i], table))
  }

  /** The loaded data frame: the three categorical columns and every other column by name. */
  class GameFrame {
    var price: seq<Cell>
    var genre: seq<Cell>
    var theme: seq<Cell>
    var others: map<string, seq<Cell>>

    /** All columns have one cell per row, and the three categorical columns are not among the others. */
    ghost predicate Valid()
      reads this
    {
      && |genre| == |price| && |theme| == |price|
      && "Price" !in others && "Genre" !in others && "Theme" !in others
      && forall name :: name in others ==> |others[name]| == |price|
    }

    function RowCount(): (n: nat)
      reads this
    {
      |price|
    }

    constructor (price: seq<Cell>, genre: seq<Cell>, theme: seq<Cell>, others: map<string, seq<Cell>>)
      requires |genre| == |price| && |theme| == |price|
      requires "Price" !in others && "Genre" !in others && "Theme" !in others
      requires forall name :: name in others ==> |others[name]| == |price|
      ensures Valid()
      ensures this.price == price && this.genre == genre && this.theme == theme && this.others == others
    {
      this.price := price;
      this.genre := genre;
      this.theme := theme;
      this.others := others;
    }
  }

  /**
   * `encoding_mapping(df)`: `mapped_df` aliases `df`; its Price, Genre and
   * Theme columns are reassigned with their encodings and it is returned.
   * Row count and every other column stay as they were.
   */
  method EncodingMapping(df: GameFrame) returns (mappedDf: GameFrame)
    requires df.Valid()
    modifies df
    ensures mappedDf == df
    ensures df.Valid() && df.RowCount() == old(df.RowCount())
    ensures df.price == MapColumn(old(df.price), ORDINAL_MAPPING)
    ensures df.genre == MapColumn(old(df.genre), GENRE_MAPPING)
    ensures df.theme == MapColumn(old(df.theme), THEME_MAPPING)
    ensures df.others == old(df.others)
  {
    mappedDf := df;
    mappedDf.price := MapColumn(mappedDf.price, ORDINAL_MAPPING);
    mappedDf.genre := MapColumn(mappedDf.genre, GENRE_MAPPING);
    mappedDf.theme := MapColumn(mappedDf.theme, THEME_MAPPING);
  }

  /**
   * What an encoded cell says about the raw one: it is a number exactly when
   * the raw cell was a text the table knows, and that number is the code the
   * table gives that text; otherwise it is missing.
   */
  lemma EncodedCellMeaning(column: seq<Cell>, table: map<string, int>, i: nat)
    requires i < |column|
    ensures MapColumn(column, table)[i].Number? <==> column[i].Text? && column[i].s in table
    ensures MapColumn(column, table)[i].Number? ==> exists code :: code in table.Values && MapColumn(column, table)[i].v == code as real
    ensures !MapColumn(column, table)[i].Number? ==> MapColumn(column, table)[i] == Missing
    ensures column[i].Text? && column[i].s in table ==> MapColumn(column, table)[i] == Number(table[column[i].s] as real)
  {
    if MapColumn(column, table)[i].Number? {
      assert table[column[i].s] in table.Values;
    }
  }

  /** A table that gives distinct texts distinct codes. */
  ghost predicate Injective(table: map<string, int>)
  {
    forall a, b :: a in table && b in table && a != b ==> table[a] != table[b]
  }

  /**
   * Encoding with an injective table loses nothing about known texts: two
   * cells that encode to the same code held the same text.
   */
  lemma EncodeCellInjective(table: map<string, int>, c1: Cell, c2: Cell)
    requires Injective(table)
    requires EncodeCell(c1, table).Number? && EncodeCell(c1, table) == EncodeCell(c2, table)
    ensures c1 == c2
  {
    assert table[c1.s] as real == table[c2.s] as real;
  }

  /** `table` gives the i-th of `labels` the code `first + i`, and knows no other text. */
  ghost predicate ListsTable(labels: seq<string>, table: map<string, int>, first: int)
  {
    && (forall i :: 0 <= i < |labels| ==> labels[i] in table && table[labels[i]] == first + i)
    && (forall b :: b in table ==> b in labels)
  }

  /** A table laid out by `ListsTable` is injective, order-preserving, and onto `first..first+|labels|-1`. */
  lemma ListedTableFacts(labels: seq<string>, table: map<string, int>, first: int)
    requires ListsTable(labels, table, first)
    ensures Injective(table)
    ensures forall i, j :: 0 <= i < j < |labels| ==> table[labels[i]] < table[labels[j]]
    ensures forall c :: c in table.Values <==> first <= c < first + |labels|
  {
    forall c | first <= c < first + |labels|
      ensures c in table.Values
    {
      assert table[labels[c - first]] == c;
    }
    forall c | c in table.Values
      ensures first <= c < first + |labels|
    {
      var b :| b in table && table[b] == c;
      var i :| 0 <= i < |labels| && labels[i] == b;
    }
    forall a, b | a in table && b in table && a != b
      ensures table[a] != table[b]
    {
      var i :| 0 <= i < |labels| && labels[i] == a;
      var j :| 0 <= j < |labels| && labels[j] == b;
    }
  }

  /** The genre and theme abbreviations in the order of the source literals. */
  const GENRE_LABELS: seq<string> := ["AA", "RP", "ST", "SM", "SR", "VN", "PG"]
  const THEME_LABELS: seq<string> := ["AN", "HR", "MY", "SF", "FN", "PA", "HS", "MD", "WA", "SH", "PG"]

  /** The price brackets map to 0..5 in their listed order, so the encoding is order-preserving and injective. */
  lemma PriceOrder()
    ensures ListsTable(PRICE_BRACKETS, ORDINAL_MAPPING, 0)
    ensures Injective(ORDINAL_MAPPING)
    ensures forall i, j :: 0 <= i < j < |PRICE_BRACKETS| ==>
              ORDINAL_MAPPING[PRICE_BRACKETS[i]] < ORDINAL_MAPPING[PRICE_BRACKETS[j]]
    ensures forall c :: c in ORDINAL_MAPPING.Values <==> 0 <= c <= 5
  {
    ListedTableFacts(PRICE_BRACKETS, ORDINAL_MAPPING, 0);
  }

  /**
   * The encoded Price column keeps the bracket order: a row whose raw price is
   * an earlier bracket gets a smaller code than a row with a later bracket.
   */
  lemma EncodedPriceOrder(column: seq<Cell>, a: nat, b: nat, i: nat, j: nat)
    requires a < |column| && b < |column|
    requires i < j < |PRICE_BRACKETS|
    requires column[a] == Text(PRICE_BRACKETS[i]) && column[b] == Text(PRICE_BRACKETS[j])
    ensures MapColumn(column, ORDINAL_MAPPING)[a].Number? && MapColumn(column, ORDINAL_MAPPING)[b].Number?
    ensures MapColumn(column, ORDINAL_MAPPING)[a].v < MapColumn(column, ORDINAL_MAPPING)[b].v
  {
    PriceOrder();
  }

  /** The genre abbreviations map one-to-one onto 11..17. */
  lemma GenreCodeRange()
    ensures ListsTable(GENRE_LABELS, GENRE_MAPPING, 11)
    ensures Injective(GENRE_MAPPING)
    ensures forall c :: c in GENRE_MAPPING.Values <==> 11 <= c <= 17
  {
    ListedTableFacts(GENRE_LABELS, GENRE_MAPPING, 11);
  }

  /** The theme abbreviations map one-to-one onto 0..10. */
  lemma ThemeCodeRange()
    ensures ListsTable(THEME_LABELS, THEME_MAPPING, 0)
    ensures Injective(THEME_MAPPING)
    ensures forall c :: c in THEME_MAPPING.Values <==> 0 <= c <= 10
  {
    ListedTableFacts(THEME_LABELS, THEME_MAPPING, 0);
  }

  /**
   * The raw label `PG` is 17 in the Genre column but 10 in the Theme column;
   * the code tables of the dashboard know 17 ("Party Games") and do not know 10.
   */
  lemma PartyGamesTwoCodes()
    ensures GENRE_MAPPING["PG"] == 17 && THEME_MAPPING["PG"] == 10
    ensures CategoryCodes.AllMapping(CategoryCodes.CodeKey(17)) == Wrappers.Some(CategoryCodes.Name("Party Games"))
    ensures CategoryCodes.AllMapping(CategoryCodes.CodeKey(10)).None?
  {
  }

  /**
   * Every genre code the encoder writes has a name in the dashboard's code
   * tables, and so does every theme code except the 10 of `PG`.
   */
  lemma EncodedCodesHaveNames()
    ensures forall a :: a in GENRE_MAPPING ==> CategoryCodes.AllMapping(CategoryCodes.CodeKey(GENRE_MAPPING[a])).Some?
    ensures forall a :: a in THEME_MAPPING && a != "PG" ==> CategoryCodes.AllMapping(CategoryCodes.CodeKey(THEME_MAPPING[a])).Some?
  {
  }
}
