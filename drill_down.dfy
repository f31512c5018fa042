/**
 * The category drill-downs of the dashboard (`model_by_genre` and
 * `model_by_theme` in data_getters.py): keep the rows of one genre (or
 * theme), fit a fresh regressor on them, and report per theme (or genre)
 * code the mean actual and the mean predicted sales. Fitting is a parameter.
 */
module DrillDown {
  import opened Wrappers
  import opened Stats
  import CategoryCodes

  /** The feature columns of one row of the encoded table; a missing code is `None` (NaN). */
  datatype Inputs = Inputs(genre: Option<int>, theme: Option<int>, others: seq<real>)

  /** One row of the encoded table: its features and its `Copies_per_year` target. */
  datatype Row = Row(inputs: Inputs, target: real)

  /** A fitted regressor, seen through its `predict`. */
  type Regressor = Inputs -> real

  /** Which categorical column a drill-down filters or buckets on. */
  datatype Axis = GenreAxis | ThemeAxis

  function CategoryOf(r: Row, axis: Axis): (code: Option<int>)
  {
    match axis
    case GenreAxis => r.inputs.genre
    case ThemeAxis => r.inputs.theme
  }

  /**
   * The mask `df[column] == code`: a NaN cell equals no code, and a
   * comparison with `None` (an unknown name) is false everywhere.
   */
  predicate Matches(r: Row, axis: Axis, code: Option<int>)
  {
    code.Some? && CategoryOf(r, axis) == code
  }

  /** `rows[rows[column] == code]`: the matching rows, in table order. */
  function Select(rows: seq<Row>, axis: Axis, code: Option<int>): (sub: seq<Row>)
    ensures |sub| <= |rows|
  {
    if rows == [] then []
    else
      var init, last := rows[..|rows| - 1], rows[|rows| - 1];
      Select(init, axis, code) + if Matches(last, axis, code) then [last] else []
  }

  /** The filter keeps every matching row as often as the table holds it, and no other row. */
  lemma {:induction false} SelectCounts(rows: seq<Row>, axis: Axis, code: Option<int>, r: Row)
    ensures multiset(Select(rows, axis, code))[r] == if Matches(r, axis, code) then multiset(rows)[r] else 0
  {
    if rows != [] {
      var init, last := rows[..|rows| - 1], rows[|rows| - 1];
      assert rows == init + [last];
      SelectCounts(init, axis, code, r);
    }
  }

  /** The `Copies_per_year` column of some rows. */
  function Targets(rows: seq<Row>): (t: seq<real>)
    ensures |t| == |rows|
  {
    seq(|rows|, i requires 0 <= i < |rows| => rows[i].target)
  }

  /** The feature part of some rows (`rows.drop('Copies_per_year', axis=1)`). */
  function InputsOf(rows: seq<Row>): (x: seq<Inputs>)
    ensures |x| == |rows|
  {
    seq(|rows|, i requires 0 <= i < |rows| => rows[i].inputs)
  }

  /** `model.predict(rows.drop('Copies_per_year', axis=1))`. */
  function Predictions(rows: seq<Row>, model: Regressor): (p: seq<real>)
    ensures |p| == |rows|
  {
    seq(|rows|, i requires 0 <= i < |rows| => model(rows[i].inputs))
  }

  /** One line of the grouped table: the bucket code, mean actual and mean predicted sales. */
  datatype Group = Group(key: int, actualSales: real, predictedSales: real)

  /** The line for one bucket: (0, 0) when the bucket is empty, else the two means. */
  function Summary(key: int, bucket: seq<Row>, model: Regressor): (line: Group)
    ensures line.key == key
    ensures |bucket| == 0 ==> line.actualSales == 0.0 && line.predictedSales == 0.0
    ensures |bucket| > 0 ==> line.actualSales * (|bucket| as real) == Sum(Targets(bucket))
    ensures |bucket| > 0 ==> line.predictedSales * (|bucket| as real) == Sum(Predictions(bucket, model))
  {
    if |bucket| == 0 then Group(key, 0.0, 0.0)
    else Group(key, Mean(Targets(bucket)), Mean(Predictions(bucket, model)))
  }

  /**
   * The bucketing loop: one line per code `lo..hi-1`, in ascending order,
   * each summarising the rows of `subset` with that code on `axis`.
   */
  method GroupBy(subset: seq<Row>, axis: Axis, lo: int, hi: int, model: Regressor)
    returns (grouped: seq<Group>)
    requires lo <= hi
    ensures |grouped| == hi - lo
    ensures forall i :: 0 <= i < |grouped| ==>
              grouped[i] == Summary(lo + i, Select(subset, axis, Some(lo + i)), model)
  {
    grouped := [];
    var key := lo;
    while key < hi
      invariant lo <= key <= hi
      invariant |grouped| == key - lo
      invariant forall i :: 0 <= i < |grouped| ==>
                  grouped[i] == Summary(lo + i, Select(subset, axis, Some(lo + i)), model)
    {
      var bucket := Select(subset, axis, Some(key));
      var line: Group;
      if |bucket| != 0 {
        line := Group(key, Mean(Targets(bucket)), Mean(Predictions(bucket, model)));
      } else {
        line := Group(key, 0.0, 0.0);
      }
      assert line == Summary(lo + |grouped|, Select(subset, axis, Some(lo + |grouped|)), model);
      grouped := grouped + [line];
      key := key + 1;
    }
  }

  /** A regressor fitted on zero rows: scikit-learn refuses to fit an empty sample. */
  datatype DrillError = EmptySelection

  /** The code ranges the two drill-downs report: themes `range(10)`, genres `range(11, 17)`. */
  const THEME_KEYS_FROM: int := 0
  const THEME_KEYS_TO: int := 10
  const GENRE_KEYS_FROM: int := 11
  const GENRE_KEYS_TO: int := 17

  /** `all_mapping(name)` as the filter sees it: a code, or `None` for an unknown name. */
  function SelectedCode(name: string): (code: Option<int>)
    ensures code.Some? <==> name in CategoryCodes.FORWARD_MAP
    ensures code.Some? ==> CategoryCodes.AllMapping(CategoryCodes.CodeKey(code.value)) == Some(CategoryCodes.Name(name))
  {
    CategoryCodes.ForwardThenBackward();
    match CategoryCodes.AllMapping(CategoryCodes.LabelKey(name))
    case Some(Code(c)) => Some(c)
    case _ => None
  }

  /**
   * Shared body of the two drill-downs: filter `df` to the selected code on
   * `primary`, fit a mini-model on that subset, and bucket it by `secondary`
   * over `lo..hi-1`.
   */
  method FilterAndGroup(df: seq<Row>, primary: Axis, name: string, secondary: Axis, lo: int, hi: int,
                   fit: (seq<Inputs>, seq<real>) -> Regressor)
    returns (r: Result<seq<Group>, DrillError>)
    requires lo <= hi
    ensures var subset := Select(df, primary, SelectedCode(name));
      && (r.Err? <==> subset == [])
      && (r.Ok? ==> |r.value| == hi - lo)
      && (r.Ok? ==> forall i :: 0 <= i < hi - lo ==>
            r.value[i] == Summary(lo + i, Select(subset, secondary, Some(lo + i)),
                                  fit(InputsOf(subset), Targets(subset))))
  {
    var code := SelectedCode(name);
    var subset := Select(df, primary, code);
    if subset == [] {
      return Err(EmptySelection);
    }
    var miniModel := fit(InputsOf(subset), Targets(subset));
    var grouped := GroupBy(subset, secondary, lo, hi, miniModel);
    r := Ok(grouped);
  }

  /** `model_by_genre`: the rows of one genre, bucketed by theme code 0..9. */
  method ModelByGenre(df: seq<Row>, selectedGenre: string, fit: (seq<Inputs>, seq<real>) -> Regressor)
    returns (r: Result<seq<Group>, DrillError>)
    ensures var subset := Select(df, GenreAxis, SelectedCode(selectedGenre));
      && (r.Err? <==> subset == [])
      && (r.Ok? ==> |r.value| == 10)
      && (r.Ok? ==> forall i :: 0 <= i < 10 ==>
            r.value[i].key == i &&
            r.value[i] == Summary(i, Select(subset, ThemeAxis, Some(i)), fit(InputsOf(subset), Targets(subset))))
  {
    r := FilterAndGroup(df, GenreAxis, selectedGenre, ThemeAxis, THEME_KEYS_FROM, THEME_KEYS_TO, fit);
  }

  /** `model_by_theme`: the rows of one theme, bucketed by genre code 11..16 (17 is not reported). */
  method ModelByTheme(df: seq<Row>, selectedTheme: string, fit: (seq<Inputs>, seq<real>) -> Regressor)
    returns (r: Result<seq<Group>, DrillError>)
    ensures var subset := Select(df, ThemeAxis, SelectedCode(selectedTheme));
      && (r.Err? <==> subset == [])
      && (r.Ok? ==> |r.value| == 6)
      && (r.Ok? ==> forall i :: 0 <= i < 6 ==>
            r.value[i].key == 11 + i &&
            r.value[i] == Summary(11 + i, Select(subset, GenreAxis, Some(11 + i)), fit(InputsOf(subset), Targets(subset))))
  {
    r := FilterAndGroup(df, ThemeAxis, selectedTheme, GenreAxis, GENRE_KEYS_FROM, GENRE_KEYS_TO, fit);
  }

  /**
   * What a line says: an empty bucket reports (0, 0); a non-empty one reports
   * means that lie between the smallest and largest actual (and predicted)
   * value of the bucket, so non-negative sales give a non-negative mean.
   */
  lemma SummaryMeaning(key: int, bucket: seq<Row>, model: Regressor)
    ensures Summary(key, bucket, model).key == key
    ensures |bucket| == 0 ==> Summary(key, bucket, model) == Group(key, 0.0, 0.0)
    ensures |bucket| > 0 ==>
      && Min(Targets(bucket)) <= Summary(key, bucket, model).actualSales <= Max(Targets(bucket))
      && Min(Predictions(bucket, model)) <= Summary(key, bucket, model).predictedSales <= Max(Predictions(bucket, model))
    ensures (forall i :: 0 <= i < |bucket| ==> 0.0 <= bucket[i].target) ==> 0.0 <= Summary(key, bucket, model).actualSales
  {
    if |bucket| > 0 {
      MeanBetweenMinMax(Targets(bucket));
      MeanBetweenMinMax(Predictions(bucket, model));
      if forall i :: 0 <= i < |bucket| ==> 0.0 <= bucket[i].target {
        assert 0.0 <= Targets(bucket)[0];
        MeanBounds(Targets(bucket), 0.0, Max(Targets(bucket)));
      }
    }
  }

  /** The filter keeps exactly the rows whose category equals the selected code. */
  lemma SelectMembership(rows: seq<Row>, axis: Axis, code: Option<int>, r: Row)
    ensures r in Select(rows, axis, code) <==> r in rows && code.Some? && CategoryOf(r, axis) == code
  {
    SelectCounts(rows, axis, code, r);
  }

  /**
   * A name that is in no table selects nothing, and so does a theme name
   * handed to the genre drill-down of a table whose genre cells all hold
   * genre codes 11..17, and a genre name handed to the theme drill-down of a
   * table whose theme cells all hold codes 0..10 (the theme codes and the 10
   * the encoder writes for `PG`): such a call ends in `EmptySelection`.
   */
  lemma WrongNameSelectsNothing(df: seq<Row>, name: string)
    ensures name !in CategoryCodes.FORWARD_MAP ==>
              Select(df, GenreAxis, SelectedCode(name)) == [] && Select(df, ThemeAxis, SelectedCode(name)) == []
    ensures name in CategoryCodes.THEME_NAMES &&
            (forall i :: 0 <= i < |df| ==> df[i].inputs.genre.None? || CategoryCodes.IsGenreCode(df[i].inputs.genre.value)) ==>
              Select(df, GenreAxis, SelectedCode(name)) == []
    ensures name in CategoryCodes.GENRE_NAMES &&
            (forall i :: 0 <= i < |df| ==> df[i].inputs.theme.None? || 0 <= df[i].inputs.theme.value <= 10) ==>
              Select(df, ThemeAxis, SelectedCode(name)) == []
  {
    CategoryCodes.NamesByAxis(name);
    forall axis: Axis | Select(df, axis, SelectedCode(name)) != []
      ensures exists i :: 0 <= i < |df| && Matches(df[i], axis, SelectedCode(name))
    {
      var r := Select(df, axis, SelectedCode(name))[0];
      SelectMembership(df, axis, SelectedCode(name), r);
    }
  }
}
