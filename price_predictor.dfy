/**
 * The inference-time feature row of the car price app: `predict_price` builds a
 * one-row table over the persisted training columns (the schema), fills in the
 * mileage, the age and one one-hot column per categorical field, projects the
 * row back onto the schema and hands it to the trained regressor.
 */
module PricePredictor {
  import opened Sequences

  /** The four categorical inputs, in the order the app encodes them. */
  datatype Field = Fuel | Seller | Transmission | Owner

  /** One car as entered in the sidebar form. */
  datatype CarInput = CarInput(
    year: int,
    kmsDriven: int,
    fuelType: string,
    sellerType: string,
    transmissionType: string,
    ownerType: string)

  /** The trained regressor, known only as some function of the feature row. */
  type Regressor = seq<int> -> real

  /** What `predict_price` ends in: pandas' error for a frame without columns, or a price. */
  datatype Prediction = NoColumnsError | Predicted(price: real)

  const KmsColumn: string := "kms_driven"
  const AgeColumn: string := "car_age"

  /** Bounds of the sidebar's two number inputs; the latest year is the reference year. */
  const MinYear: int := 1990
  const MinKms: int := 100
  const MaxKms: int := 500000

  function FieldName(f: Field): string {
    match f
    case Fuel => "fuel_type"
    case Seller => "seller_type"
    case Transmission => "transmission_type"
    case Owner => "owner_type"
  }

  function ValueOf(car: CarInput, f: Field): string {
    match f
    case Fuel => car.fuelType
    case Seller => car.sellerType
    case Transmission => car.transmissionType
    case Owner => car.ownerType
  }

  /** `car` with the value of field `f` replaced by `v`. */
  function WithValue(car: CarInput, f: Field, v: string): (c: CarInput)
    ensures ValueOf(c, f) == v
    ensures forall g :: g != f ==> ValueOf(c, g) == ValueOf(car, g)
    ensures c.year == car.year && c.kmsDriven == car.kmsDriven
  {
    match f
    case Fuel => car.(fuelType := v)
    case Seller => car.(sellerType := v)
    case Transmission => car.(transmissionType := v)
    case Owner => car.(ownerType := v)
  }

  function ColumnPrefix(f: Field): string {
    FieldName(f) + "_"
  }

  /** The one-hot column name `"<field>_<value>"`. */
  function OneHotName(f: Field, v: string): string {
    ColumnPrefix(f) + v
  }

  /** `name` is a one-hot column of field `f`, whatever its category. */
  predicate IsColumnOf(name: string, f: Field) {
    |ColumnPrefix(f)| <= |name| && name[..|ColumnPrefix(f)|] == ColumnPrefix(f)
  }

  predicate IsCategorical(name: string) {
    IsColumnOf(name, Fuel) || IsColumnOf(name, Seller) || IsColumnOf(name, Transmission) || IsColumnOf(name, Owner)
  }

  /** The four one-hot columns the app tries to set for `car`. */
  function OneHotColumns(car: CarInput): seq<string> {
    [OneHotName(Fuel, car.fuelType), OneHotName(Seller, car.sellerType),
     OneHotName(Transmission, car.transmissionType), OneHotName(Owner, car.ownerType)]
  }

  function CarAge(year: int, referenceYear: int): int {
    referenceYear - year
  }

  /** What the finished row holds in a schema column called `name`. */
  function Entry(name: string, car: CarInput, referenceYear: int): int {
    if name == KmsColumn then car.kmsDriven
    else if name == AgeColumn then CarAge(car.year, referenceYear)
    else if name in OneHotColumns(car) then 1
    else 0
  }

  /** The feature row for `car`: one entry per schema position, entry i for column schema[i]. */
  function ExpectedRow(schema: seq<string>, car: CarInput, referenceYear: int): (row: seq<int>)
    ensures |row| == |schema|
    ensures forall i :: 0 <= i < |schema| ==> row[i] == Entry(schema[i], car, referenceYear)
  {
    if schema == [] then []
    else [Entry(schema[0], car, referenceYear)] + ExpectedRow(schema[1..], car, referenceYear)
  }

  /** The inputs the sidebar form can produce. */
  predicate FormBounds(car: CarInput, referenceYear: int) {
    MinYear <= car.year <= referenceYear && MinKms <= car.kmsDriven <= MaxKms
  }

  // ---------------------------------------------------------------------------
  // Column names

  lemma OneHotNameShape(f: Field, v: string)
    ensures IsColumnOf(OneHotName(f, v), f)
    ensures OneHotName(f, v)[|ColumnPrefix(f)|..] == v
  {
  }

  /** A column name belongs to at most one field: the field names start with different letters. */
  lemma {:induction false} ColumnOfOneField(name: string, f: Field, g: Field)
    requires IsColumnOf(name, f) && IsColumnOf(name, g)
    ensures f == g
  {
    assert name[0] == name[..|ColumnPrefix(f)|][0] == ColumnPrefix(f)[0] == FieldName(f)[0];
    assert name[0] == name[..|ColumnPrefix(g)|][0] == ColumnPrefix(g)[0] == FieldName(g)[0];
  }

  /** Neither numeric column is a one-hot column. */
  lemma NumericNotCategorical()
    ensures !IsCategorical(KmsColumn) && !IsCategorical(AgeColumn)
  {
    forall f: Field ensures !IsColumnOf(KmsColumn, f) && !IsColumnOf(AgeColumn, f) {
      FirstLetterOfColumn(KmsColumn, f);
      FirstLetterOfColumn(AgeColumn, f);
    }
  }

  lemma FirstLetterOfColumn(name: string, f: Field)
    ensures IsColumnOf(name, f) ==> name[0] == FieldName(f)[0]
  {
  }

  lemma NumericNotOneHot(f: Field, v: string)
    ensures OneHotName(f, v) != KmsColumn && OneHotName(f, v) != AgeColumn
  {
    OneHotNameShape(f, v);
    NumericNotCategorical();
  }

  /** Different (field, value) pairs give different one-hot names. */
  lemma {:induction false} OneHotNameInjective(f: Field, v: string, g: Field, w: string)
    requires OneHotName(f, v) == OneHotName(g, w)
    ensures f == g && v == w
  {
    OneHotNameShape(f, v);
    OneHotNameShape(g, w);
    ColumnOfOneField(OneHotName(f, v), f, g);
  }

  /** The one-hot column of `car` that belongs to field `f`. */
  lemma OneHotColumnOfField(car: CarInput, name: string, f: Field)
    requires name in OneHotColumns(car) && IsColumnOf(name, f)
    ensures name == OneHotName(f, ValueOf(car, f))
  {
    var g :| g in {Fuel, Seller, Transmission, Owner} && name == OneHotName(g, ValueOf(car, g));
    OneHotNameShape(g, ValueOf(car, g));
    ColumnOfOneField(name, f, g);
  }

  // ---------------------------------------------------------------------------
  // Building the row

  /**
   * `frame[name] = value` on the one-row frame whose first columns are `schema`
   * and whose appended columns are `added`: every schema column called `name`
   * takes `value`, and a name the frame does not have yet is appended.
   */
  method AssignColumn(row: array<int>, schema: seq<string>, added: seq<string>, name: string, value: int)
    returns (added': seq<string>)
    requires row.Length == |schema|
    modifies row
    ensures forall i :: 0 <= i < row.Length ==> row[i] == if schema[i] == name then value else old(row[i])
    ensures added' == if name in schema || name in added then added else added + [name]
  {
    for i := 0 to row.Length
      invariant forall k :: 0 <= k < i ==> row[k] == if schema[k] == name then value else old(row[k])
      invariant forall k :: i <= k < row.Length ==> row[k] == old(row[k])
    {
      if schema[i] == name {
        row[i] := value;
      }
    }
    added' := if name in schema || name in added then added else added + [name];
  }

  /**
   * `row` holds the mileage in the `kms_driven` columns, the age in the
   * `car_age` columns, 1 in the columns named in `hot` and 0 elsewhere.
   */
  ghost predicate Filled(row: seq<int>, schema: seq<string>, car: CarInput, referenceYear: int, hot: seq<string>) {
    |row| == |schema| &&
    forall k :: 0 <= k < |schema| ==>
      row[k] == if schema[k] == KmsColumn then car.kmsDriven
                else if schema[k] == AgeColumn then CarAge(car.year, referenceYear)
                else if schema[k] in hot then 1
                else 0
  }

  /**
   * `if name in frame.columns: frame[name] = 1` for a one-hot name: the frame's
   * columns are `schema` followed by `added`.
   */
  method SetIfPresent(row: array<int>, schema: seq<string>, added: seq<string>, name: string,
                      ghost car: CarInput, ghost referenceYear: int, ghost hot: seq<string>)
    returns (added': seq<string>)
    requires row.Length == |schema|
    requires name != KmsColumn && name != AgeColumn
    requires Filled(row[..], schema, car, referenceYear, hot)
    modifies row
    ensures Filled(row[..], schema, car, referenceYear, hot + [name])
    ensures added' == added
  {
    if name in schema || name in added {
      added' := AssignColumn(row, schema, added, name, 1);
    } else {
      added' := added;
    }
  }

  /**
   * `predict_price` up to the regressor call: zero row over the schema, mileage
   * and age assigned, each one-hot column set only when the frame already has
   * it, then the projection onto the schema. Setting row 0 of a frame without
   * columns raises, so the schema is not empty.
   */
  method BuildFeatureRow(schema: seq<string>, car: CarInput, referenceYear: int) returns (row: array<int>)
    requires schema != []
    ensures fresh(row)
    ensures row.Length == |schema|
    ensures row[..] == ExpectedRow(schema, car, referenceYear)
  {
    row := new int[|schema|](_ => 0);
    var added: seq<string> := [];
    added := AssignColumn(row, schema, added, KmsColumn, car.kmsDriven);
    added := AssignColumn(row, schema, added, AgeColumn, CarAge(car.year, referenceYear));
    assert Filled(row[..], schema, car, referenceYear, []);
    NumericNotOneHot(Fuel, car.fuelType);
    NumericNotOneHot(Seller, car.sellerType);
    NumericNotOneHot(Transmission, car.transmissionType);
    NumericNotOneHot(Owner, car.ownerType);
    var fuel := OneHotName(Fuel, car.fuelType);
    added := SetIfPresent(row, schema, added, fuel, car, referenceYear, []);
    var seller := OneHotName(Seller, car.sellerType);
    added := SetIfPresent(row, schema, added, seller, car, referenceYear, [fuel]);
    var transmission := OneHotName(Transmission, car.transmissionType);
    added := SetIfPresent(row, schema, added, transmission, car, referenceYear, [fuel, seller]);
    var owner := OneHotName(Owner, car.ownerType);
    added := SetIfPresent(row, schema, added, owner, car, referenceYear, [fuel, seller, transmission]);
    // Projecting onto the schema drops the appended columns in `added` and
    // keeps every schema column at its position, so `row` is already the result.
    assert [fuel, seller, transmission] + [owner] == OneHotColumns(car);
  }

  /**
   * `predict_price`: over an empty column list, setting row 0 of a frame without
   * columns raises before the regressor is reached; otherwise the price is the
   * regressor applied to the built row and to nothing else.
   */
  method PredictPrice(model: Regressor, schema: seq<string>, car: CarInput, referenceYear: int) returns (result: Prediction)
    ensures result.NoColumnsError? <==> schema == []
    ensures schema != [] ==> result == Predicted(model(ExpectedRow(schema, car, referenceYear)))
  {
    if schema == [] {
      return NoColumnsError;
    }
    var row := BuildFeatureRow(schema, car, referenceYear);
    result := Predicted(model(row[..]));
  }

  // ---------------------------------------------------------------------------
  // Properties of the row

  /** Only the mileage column, the age column and the four one-hot columns of `car` can be non-zero. */
  lemma ZeroOutsideTargets(schema: seq<string>, car: CarInput, referenceYear: int)
    ensures forall i :: 0 <= i < |schema| && schema[i] !in [KmsColumn, AgeColumn] + OneHotColumns(car) ==>
      ExpectedRow(schema, car, referenceYear)[i] == 0
  {
  }

  /** The mileage column holds the mileage and the age column the reference year minus the year. */
  lemma NumericEntries(schema: seq<string>, car: CarInput, referenceYear: int)
    ensures forall i :: 0 <= i < |schema| && schema[i] == KmsColumn ==>
      ExpectedRow(schema, car, referenceYear)[i] == car.kmsDriven
    ensures forall i :: 0 <= i < |schema| && schema[i] == AgeColumn ==>
      ExpectedRow(schema, car, referenceYear)[i] == referenceYear - car.year
  {
  }

  /** The one-hot column of field `f` is 1 wherever the schema has it, so some entry is 1 exactly when the schema has it. */
  lemma OneHotEntry(schema: seq<string>, car: CarInput, referenceYear: int, f: Field)
    ensures forall i :: 0 <= i < |schema| && schema[i] == OneHotName(f, ValueOf(car, f)) ==>
      ExpectedRow(schema, car, referenceYear)[i] == 1
    ensures OneHotName(f, ValueOf(car, f)) in schema <==>
      exists i :: 0 <= i < |schema| && schema[i] == OneHotName(f, ValueOf(car, f)) && ExpectedRow(schema, car, referenceYear)[i] == 1
  {
    NumericNotOneHot(f, ValueOf(car, f));
  }

  /**
   * A category whose one-hot column the schema lacks (an unseen value, or the
   * reference value dropped in training) gives the same row as any other such
   * category.
   */
  lemma AbsentValuesIndistinguishable(schema: seq<string>, car: CarInput, referenceYear: int, f: Field, v: string)
    requires OneHotName(f, ValueOf(car, f)) !in schema
    requires OneHotName(f, v) !in schema
    ensures ExpectedRow(schema, WithValue(car, f, v), referenceYear) == ExpectedRow(schema, car, referenceYear)
  {
  }

  /** The regressor cannot tell two absent categories apart either. */
  lemma AbsentValuesPredictAlike(model: Regressor, schema: seq<string>, car: CarInput, referenceYear: int, f: Field, v: string)
    requires OneHotName(f, ValueOf(car, f)) !in schema
    requires OneHotName(f, v) !in schema
    ensures model(ExpectedRow(schema, WithValue(car, f, v), referenceYear)) == model(ExpectedRow(schema, car, referenceYear))
  {
    AbsentValuesIndistinguishable(schema, car, referenceYear, f, v);
  }

  /** When the category's column is absent, every column of that field stays 0. */
  lemma AbsentValueLeavesFieldZero(schema: seq<string>, car: CarInput, referenceYear: int, f: Field)
    requires OneHotName(f, ValueOf(car, f)) !in schema
    ensures forall i :: 0 <= i < |schema| && IsColumnOf(schema[i], f) ==> ExpectedRow(schema, car, referenceYear)[i] == 0
  {
    NumericNotCategorical();
    forall i | 0 <= i < |schema| && IsColumnOf(schema[i], f) && schema[i] in OneHotColumns(car) ensures false {
      OneHotColumnOfField(car, schema[i], f);
    }
  }

  /** One-hot columns hold only 0 or 1. */
  lemma CategoricalEntriesAreBits(schema: seq<string>, car: CarInput, referenceYear: int)
    ensures forall i :: 0 <= i < |schema| && IsCategorical(schema[i]) ==>
      ExpectedRow(schema, car, referenceYear)[i] == 0 || ExpectedRow(schema, car, referenceYear)[i] == 1
  {
    NumericNotCategorical();
  }

  /** Over a schema without repeated names, at most one column of each field is 1. */
  lemma AtMostOneHotPerField(schema: seq<string>, car: CarInput, referenceYear: int, f: Field)
    requires NoDuplicates(schema)
    ensures forall i, j ::
      (0 <= i < |schema| && 0 <= j < |schema| && IsColumnOf(schema[i], f) && IsColumnOf(schema[j], f) &&
       ExpectedRow(schema, car, referenceYear)[i] == 1 && ExpectedRow(schema, car, referenceYear)[j] == 1) ==> i == j
  {
    var r := ExpectedRow(schema, car, referenceYear);
    NumericNotCategorical();
    forall i, j | 0 <= i < |schema| && 0 <= j < |schema| && IsColumnOf(schema[i], f) && IsColumnOf(schema[j], f) &&
      r[i] == 1 && r[j] == 1
      ensures i == j
    {
      OneHotColumnOfField(car, schema[i], f);
      OneHotColumnOfField(car, schema[j], f);
    }
  }

  /** How many one-hot positions of `row` hold 1. */
  function HotCount(schema: seq<string>, row: seq<int>): nat
    requires |row| == |schema|
  {
    if schema == [] then 0
    else
      var n := |schema| - 1;
      HotCount(schema[..n], row[..n]) + if IsCategorical(schema[n]) && row[n] == 1 then 1 else 0
  }

  /** Over a schema without repeated names, at most four one-hot entries are 1. */
  lemma AtMostFourHot(schema: seq<string>, car: CarInput, referenceYear: int)
    requires NoDuplicates(schema)
    ensures HotCount(schema, ExpectedRow(schema, car, referenceYear)) <= 4
  {
    var c := OneHotColumns(car);
    NumericNotCategorical();
    HotCountBound(schema, ExpectedRow(schema, car, referenceYear), {c[0], c[1], c[2], c[3]});
  }

  /** Hot positions carry distinct names, all drawn from `allowed`, so there are at most |allowed| of them. */
  lemma {:induction false} HotCountBound(schema: seq<string>, row: seq<int>, allowed: set<string>)
    requires |row| == |schema|
    requires NoDuplicates(schema)
    requires forall i :: 0 <= i < |schema| && IsCategorical(schema[i]) && row[i] == 1 ==> schema[i] in allowed
    ensures HotCount(schema, row) <= |allowed|
  {
    if schema != [] {
      var n := |schema| - 1;
      if IsCategorical(schema[n]) && row[n] == 1 {
        HotCountBound(schema[..n], row[..n], allowed - {schema[n]});
      } else {
        HotCountBound(schema[..n], row[..n], allowed);
      }
    }
  }

  /** Under the form's bounds the age lies in [0, referenceYear - 1990] and the mileage in [100, 500000]. */
  lemma FormBoundsRow(schema: seq<string>, car: CarInput, referenceYear: int)
    requires FormBounds(car, referenceYear)
    ensures forall i :: 0 <= i < |schema| && schema[i] == AgeColumn ==>
      0 <= ExpectedRow(schema, car, referenceYear)[i] <= referenceYear - MinYear
    ensures forall i :: 0 <= i < |schema| && schema[i] == KmsColumn ==>
      MinKms <= ExpectedRow(schema, car, referenceYear)[i] <= MaxKms
    ensures forall i :: 0 <= i < |schema| ==> 0 <= ExpectedRow(schema, car, referenceYear)[i]
  {
  }

  // ---------------------------------------------------------------------------
  // A worked example over the columns the training script persists

  /** The training columns for the CarDekho data: CNG, Dealer, Automatic and First Owner are the dropped reference categories. */
  const TrainedColumns: seq<string> := [
    "kms_driven", "car_age",
    "fuel_type_Diesel", "fuel_type_Electric", "fuel_type_LPG", "fuel_type_Petrol",
    "seller_type_Individual", "seller_type_Trustmark Dealer",
    "transmission_type_Manual",
    "owner_type_Fourth & Above Owner", "owner_type_Second Owner", "owner_type_Test Drive Car", "owner_type_Third Owner"]

  /** The sidebar's default car. */
  const DefaultCar: CarInput := CarInput(2015, 70000, "Diesel", "Individual", "Manual", "First Owner")

  /** A car whose every category is the reference one dropped in training. */
  const ReferenceCar: CarInput := CarInput(2020, 15000, "CNG", "Dealer", "Automatic", "First Owner")

  /** A row whose every entry is the one its column calls for is the expected row. */
  lemma RowFromEntries(schema: seq<string>, car: CarInput, referenceYear: int, expected: seq<int>)
    requires |expected| == |schema|
    requires forall i :: 0 <= i < |schema| ==> Entry(schema[i], car, referenceYear) == expected[i]
    ensures ExpectedRow(schema, car, referenceYear) == expected
  {
  }

  /**
   * The default car's row in 2024 over the trained columns: mileage 70000, age 9,
   * and 1 exactly in the Diesel, Individual and Manual columns (First Owner is
   * the reference category, so every owner column stays 0).
   */
  lemma DefaultCarColumns()
    ensures ExpectedRow(TrainedColumns, DefaultCar, 2024) == [70000, 9, 1, 0, 0, 0, 1, 0, 1, 0, 0, 0, 0]
  {
    var expected := [70000, 9, 1, 0, 0, 0, 1, 0, 1, 0, 0, 0, 0];
    forall i | 0 <= i < |TrainedColumns| ensures Entry(TrainedColumns[i], DefaultCar, 2024) == expected[i] {
      DefaultCarEntries();
    }
    RowFromEntries(TrainedColumns, DefaultCar, 2024, expected);
  }

  lemma DefaultCarEntries()
    ensures Entry("kms_driven", DefaultCar, 2024) == 70000
    ensures Entry("car_age", DefaultCar, 2024) == 9
    ensures Entry("fuel_type_Diesel", DefaultCar, 2024) == 1
    ensures Entry("fuel_type_Electric", DefaultCar, 2024) == 0
    ensures Entry("fuel_type_LPG", DefaultCar, 2024) == 0
    ensures Entry("fuel_type_Petrol", DefaultCar, 2024) == 0
    ensures Entry("seller_type_Individual", DefaultCar, 2024) == 1
    ensures Entry("seller_type_Trustmark Dealer", DefaultCar, 2024) == 0
    ensures Entry("transmission_type_Manual", DefaultCar, 2024) == 1
    ensures Entry("owner_type_Fourth & Above Owner", DefaultCar, 2024) == 0
    ensures Entry("owner_type_Second Owner", DefaultCar, 2024) == 0
    ensures Entry("owner_type_Test Drive Car", DefaultCar, 2024) == 0
    ensures Entry("owner_type_Third Owner", DefaultCar, 2024) == 0
  {
    DefaultCarOneHot();
  }

  lemma DefaultCarOneHot()
    ensures OneHotColumns(DefaultCar) == ["fuel_type_Diesel", "seller_type_Individual", "transmission_type_Manual", "owner_type_First Owner"]
  {
    assert OneHotName(Fuel, "Diesel") == "fuel_type_Diesel";
    assert OneHotName(Seller, "Individual") == "seller_type_Individual";
    assert OneHotName(Transmission, "Manual") == "transmission_type_Manual";
    assert OneHotName(Owner, "First Owner") == "owner_type_First Owner";
  }

  /** The reference car's row in 2024 over the trained columns: mileage and age set, every one-hot column 0. */
  lemma ReferenceCarColumns()
    ensures ExpectedRow(TrainedColumns, ReferenceCar, 2024) == [15000, 4, 0, 0, 0, 0, 0, 0, 0, 0, 0, 0, 0]
  {
    var expected := [15000, 4, 0, 0, 0, 0, 0, 0, 0, 0, 0, 0, 0];
    forall i | 0 <= i < |TrainedColumns| ensures Entry(TrainedColumns[i], ReferenceCar, 2024) == expected[i] {
      ReferenceCarEntries();
    }
    RowFromEntries(TrainedColumns, ReferenceCar, 2024, expected);
  }

  lemma ReferenceCarEntries()
    ensures Entry("kms_driven", ReferenceCar, 2024) == 15000
    ensures Entry("car_age", ReferenceCar, 2024) == 4
    ensures Entry("fuel_type_Diesel", ReferenceCar, 2024) == 0
    ensures Entry("fuel_type_Electric", ReferenceCar, 2024) == 0
    ensures Entry("fuel_type_LPG", ReferenceCar, 2024) == 0
    ensures Entry("fuel_type_Petrol", ReferenceCar, 2024) == 0
    ensures Entry("seller_type_Individual", ReferenceCar, 2024) == 0
    ensures Entry("seller_type_Trustmark Dealer", ReferenceCar, 2024) == 0
    ensures Entry("transmission_type_Manual", ReferenceCar, 2024) == 0
    ensures Entry("owner_type_Fourth & Above Owner", ReferenceCar, 2024) == 0
    ensures Entry("owner_type_Second Owner", ReferenceCar, 2024) == 0
    ensures Entry("owner_type_Test Drive Car", ReferenceCar, 2024) == 0
    ensures Entry("owner_type_Third Owner", ReferenceCar, 2024) == 0
  {
    ReferenceCarOneHot();
  }

  lemma ReferenceCarOneHot()
    ensures OneHotColumns(ReferenceCar) == ["fuel_type_CNG", "seller_type_Dealer", "transmission_type_Automatic", "owner_type_First Owner"]
  {
    assert OneHotName(Fuel, "CNG") == "fuel_type_CNG";
    assert OneHotName(Seller, "Dealer") == "seller_type_Dealer";
    assert OneHotName(Transmission, "Automatic") == "transmission_type_Automatic";
    assert OneHotName(Owner, "First Owner") == "owner_type_First Owner";
  }
}
