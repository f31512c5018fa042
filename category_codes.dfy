/**
 * The category code tables of the dashboard (`all_mapping` in data_getters.py):
 * a forward table from genre and theme names to small integer codes and a
 * backward table from codes to names, written as two independent literals.
 * Genre codes are 11..17, theme codes 0..9.
 */
module CategoryCodes {
  import opened Wrappers

  /** Name -> code, in the order of the source literal. */
  const FORWARD_MAP: map<string, int> := map[
    "Anime" := 0, "Horror" := 1, "Mystery" := 2, "Science-fiction" := 3, "Fantasy" := 4,
    "Post-apocalyptic" := 5, "History" := 6, "Modern" := 7, "War" := 8, "Superhero" := 9,
    "Action-Adventure" := 11, "Party Games" := 17, "Role-Playing" := 12, "Strategy" := 13,
    "Simulation" := 14, "Sports and Racing" := 15, "Visual Novels" := 16]

  /** Code -> name, in the order of the source literal. */
  const BACKWARD_MAP: map<int, string> := map[
    11 := "Action-Adventure", 12 := "Role-Playing", 13 := "Strategy", 14 := "Simulation",
    15 := "Sports and Racing", 16 := "Visual Novels", 17 := "Party Games", 0 := "Anime",
    1 := "Horror", 2 := "Mystery", 3 := "Science-fiction", 4 := "Fantasy",
    5 := "Post-apocalyptic", 6 := "History", 7 := "Modern", 8 := "War", 9 := "Superhero"]

  /** The argument of `all_mapping`, whose Python type selects the table. */
  datatype Key = CodeKey(code: int) | LabelKey(text: string)

  /** What `all_mapping` hands back: a name for a code key, a code for a name key. */
  datatype Definition = Name(name: string) | Code(value: int)

  /** The genre names and the theme names of the forward literal. */
  const GENRE_NAMES: set<string> := {"Action-Adventure", "Role-Playing", "Strategy", "Simulation",
                                     "Sports and Racing", "Visual Novels", "Party Games"}
  const THEME_NAMES: set<string> := {"Anime", "Horror", "Mystery", "Science-fiction", "Fantasy",
                                     "Post-apocalyptic", "History", "Modern", "War", "Superhero"}

  /** The codes used for genres (11..17) and for themes (0..9). */
  predicate IsGenreCode(c: int) { 11 <= c <= 17 }
  predicate IsThemeCode(c: int) { 0 <= c <= 9 }

  /**
   * `all_mapping(key)`: an integer key is looked up in the backward table,
   * every other key in the forward table; a missing key gives `None`.
   */
  function AllMapping(key: Key): (d: Option<Definition>)
    ensures d.Some? ==> (d.value.Name? <==> key.CodeKey?)
  {
    match key
    case CodeKey(c) => if c in BACKWARD_MAP then Some(Name(BACKWARD_MAP[c])) else None
    case LabelKey(l) => if l in FORWARD_MAP then Some(Code(FORWARD_MAP[l])) else None
  }

  /** Every name of the forward literal comes back from the backward literal. */
  lemma ForwardThenBackward()
    ensures forall l :: l in FORWARD_MAP ==> FORWARD_MAP[l] in BACKWARD_MAP && BACKWARD_MAP[FORWARD_MAP[l]] == l
  {
  }

  /** Every code of the backward literal comes back from the forward literal. */
  lemma BackwardThenForward()
    ensures forall c :: c in BACKWARD_MAP ==> BACKWARD_MAP[c] in FORWARD_MAP && FORWARD_MAP[BACKWARD_MAP[c]] == c
  {
  }

  /** The codes of the backward literal in ascending order. */
  const CODES: seq<int> := [0, 1, 2, 3, 4, 5, 6, 7, 8, 9, 11, 12, 13, 14, 15, 16, 17]

  predicate Increasing(s: seq<int>) {
    forall i, j :: 0 <= i < j < |s| ==> s[i] < s[j]
  }

  /** A strictly increasing sequence has as many distinct elements as positions. */
  lemma {:induction false} IncreasingCard(s: seq<int>)
    requires Increasing(s)
    ensures |set x | x in s| == |s|
  {
    if s != [] {
      IncreasingCard(s[1..]);
      assert (set x | x in s) == {s[0]} + (set x | x in s[1..]);
      assert s[0] !in s[1..];
    }
  }

  /** Two maps that undo each other have the same number of entries. */
  lemma {:induction false} InverseSameSize<K, V>(f: map<K, V>, g: map<V, K>)
    requires forall k :: k in f ==> f[k] in g && g[f[k]] == k
    requires forall v :: v in g ==> g[v] in f && f[g[v]] == v
    ensures |f| == |g|
    decreases |f|
  {
    if |f| != 0 {
      var k :| k in f;
      var f', g' := f - {k}, g - {f[k]};
      assert |f'| == |f| - 1 && |g'| == |g| - 1;
      InverseSameSize(f', g');
    }
  }

  /** The backward literal's codes are those of `CODES`. */
  lemma BackwardKeys()
    ensures BACKWARD_MAP.Keys == set x | x in CODES
  {
  }

  /** Both literals have 17 entries: no name and no code is written twice. */
  lemma TableSizes()
    ensures |FORWARD_MAP| == 17 && |BACKWARD_MAP| == 17
  {
    assert Increasing(CODES);
    IncreasingCard(CODES);
    BackwardKeys();
    ForwardThenBackward();
    BackwardThenForward();
    InverseSameSize(FORWARD_MAP, BACKWARD_MAP);
  }

  /** The codes that decode are exactly the genre codes and the theme codes; 10 is not among them. */
  lemma CodeSpace(c: int)
    ensures AllMapping(CodeKey(c)).Some? <==> IsGenreCode(c) || IsThemeCode(c)
  {
  }

  /**
   * Round trip through `all_mapping`: a name that encodes to a code decodes
   * back to that name, and a code that decodes to a name encodes back to that code.
   */
  lemma AllMappingRoundTrip(l: string, c: int)
    ensures AllMapping(LabelKey(l)) == Some(Code(c)) ==> AllMapping(CodeKey(c)) == Some(Name(l))
    ensures AllMapping(CodeKey(c)) == Some(Name(l)) ==> AllMapping(LabelKey(l)) == Some(Code(c))
  {
    ForwardThenBackward();
    BackwardThenForward();
  }

  /** The genre names lead to genre codes, the theme names to theme codes. */
  lemma NamesByAxis(l: string)
    ensures AllMapping(LabelKey(l)).Some? ==>
      var c := AllMapping(LabelKey(l)).value.value; IsGenreCode(c) || IsThemeCode(c)
    ensures l in GENRE_NAMES ==> IsGenreCode(AllMapping(LabelKey(l)).value.value)
    ensures l in THEME_NAMES ==> IsThemeCode(AllMapping(LabelKey(l)).value.value)
  {
  }
}
