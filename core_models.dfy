/**
 * The health-metric part of the user record (app/core/models.py): the derived
 * body-mass index, its four-way classification, the recomputation of that
 * classification whenever a user is saved, and the email check of user creation.
 */
module CoreModels {
  import opened Wrappers

  /** The four values of the `bmi_interpretation` choice field. */
  datatype BmiLabel = Underweight | NormalWeight | Overweight | Obesity

  /** `max_length` of the `bmi_interpretation` column. */
  const LabelMaxLength: nat := 15

  /** The text stored in the `bmi_interpretation` column for each choice. */
  function LabelValue(l: BmiLabel): (s: string)
    ensures 0 < |s| <= LabelMaxLength
  {
    match l
    case Underweight => "Underweight"
    case NormalWeight => "Normal weight"
    case Overweight => "Overweight"
    case Obesity => "Obesity"
  }

  /** Reads a stored `bmi_interpretation` value back; anything outside the choices is rejected. */
  function ParseLabel(s: string): (r: Option<BmiLabel>)
    ensures r.Some? ==> LabelValue(r.value) == s
    ensures r.None? ==> forall l: BmiLabel :: LabelValue(l) != s
  {
    if s == "Underweight" then Some(Underweight)
    else if s == "Normal weight" then Some(NormalWeight)
    else if s == "Overweight" then Some(Overweight)
    else if s == "Obesity" then Some(Obesity)
    else None
  }

  /** Every choice survives being written to the column and read back. */
  lemma LabelRoundTrip(l: BmiLabel)
    ensures ParseLabel(LabelValue(l)) == Some(l)
  {
  }

  /** Python truthiness of a nullable float field: `None` and zero are false. */
  predicate Truthy(x: Option<real>)
    ensures Truthy(x) <==> x !in {None, Some(0.0)}
  {
    x.Some? && x.value != 0.0
  }

  /**
   * The `bmi` property: weight (kg) over the square of the height converted
   * from centimetres to metres, or `None` when either input is missing or zero.
   */
  function BmiOf(height: Option<real>, weight: Option<real>): (r: Option<real>)
    ensures r.Some? <==> Truthy(height) && Truthy(weight)
    ensures r.Some? ==> r.value * height.value * height.value == 10000.0 * weight.value
  {
    if Truthy(height) && Truthy(weight) then
      var heightInMeters := height.value / 100.0;
      Some(weight.value / (heightInMeters * heightInMeters))
    else
      None
  }

  /**
   * The defining equation pins the value down: any `b` with
   * b * (height/100)^2 == weight is the BMI the property returns.
   */
  lemma BmiUnique(height: real, weight: real, b: real)
    requires height != 0.0 && weight != 0.0
    requires b * height * height == 10000.0 * weight
    ensures BmiOf(Some(height), Some(weight)) == Some(b)
  {
    var r := BmiOf(Some(height), Some(weight)).value;
    var sq := height * height;
    assert sq > 0.0;
    assert r * sq == b * sq;
    assert r == (r * sq) / sq == (b * sq) / sq == b;
  }

  /**
   * The threshold chain of `set_bmi_interpretation`, checked in the source's
   * order. Values in [24.9, 25) pass none of the first three tests and are
   * labelled Obesity.
   */
  function Classify(bmi: Option<real>): (r: Option<BmiLabel>)
    ensures r.None? <==> bmi.None?
    ensures r == Some(Underweight) <==> bmi.Some? && bmi.value < 18.5
    ensures r == Some(NormalWeight) <==> bmi.Some? && 18.5 <= bmi.value < 24.9
    ensures r == Some(Overweight) <==> bmi.Some? && 25.0 <= bmi.value < 29.9
    ensures r == Some(Obesity) <==> bmi.Some? && (29.9 <= bmi.value || 24.9 <= bmi.value < 25.0)
  {
    if bmi.None? then None
    else if bmi.value < 18.5 then Some(Underweight)
    else if 18.5 <= bmi.value < 24.9 then Some(NormalWeight)
    else if 25.0 <= bmi.value < 29.9 then Some(Overweight)
    else Some(Obesity)
  }

  /** Severity order of the labels, used to state where the chain is (not) monotone. */
  function Severity(l: BmiLabel): nat
  {
    match l
    case Underweight => 0
    case NormalWeight => 1
    case Overweight => 2
    case Obesity => 3
  }

  /** The labels are not monotone in the BMI: 24.95 is Obesity while the larger 25 is Overweight. */
  lemma ClassifyNotMonotone()
    ensures exists b1: real, b2: real ::
      b1 < b2 && Severity(Classify(Some(b1)).value) > Severity(Classify(Some(b2)).value)
  {
    assert Classify(Some(24.95)) == Some(Obesity);
    assert Classify(Some(25.0)) == Some(Overweight);
    assert 24.95 < 25.0 && Severity(Classify(Some(24.95)).value) > Severity(Classify(Some(25.0)).value);
  }

  /** Outside the gap [24.9, 25) the labels never decrease as the BMI grows. */
  lemma ClassifyMonotoneOutsideGap(b1: real, b2: real)
    requires b1 <= b2
    requires !(24.9 <= b1 < 25.0) && !(24.9 <= b2 < 25.0)
    ensures Severity(Classify(Some(b1)).value) <= Severity(Classify(Some(b2)).value)
  {
  }

  /** The label a user with these measurements gets. */
  function LabelFor(height: Option<real>, weight: Option<real>): (r: Option<BmiLabel>)
    ensures r.None? <==> !Truthy(height) || !Truthy(weight)
  {
    Classify(BmiOf(height, weight))
  }

  /** The persisted part of a user row that this model tracks. */
  datatype UserRow = UserRow(
    email: string,
    height: Option<real>,
    weight: Option<real>,
    bmiInterpretation: Option<BmiLabel>)

  /** A row whose stored label agrees with its stored measurements. */
  predicate Consistent(row: UserRow)
  {
    row.bmiInterpretation == LabelFor(row.height, row.weight)
  }

  /**
   * What `save` hands to the persistence layer: the row with its label
   * recomputed from the current height and weight, every other field as it was.
   */
  function Prepared(row: UserRow): (r: UserRow)
    ensures Consistent(r)
    ensures r.email == row.email && r.height == row.height && r.weight == row.weight
  {
    row.(bmiInterpretation := LabelFor(row.height, row.weight))
  }

  /** Preparing a row twice is the same as preparing it once. */
  lemma PreparedIdempotent(row: UserRow)
    ensures Prepared(Prepared(row)) == Prepared(row)
  {
  }

  /** A row is left alone by preparation exactly when its label is already current. */
  lemma PreparedFixedPoints(row: UserRow)
    ensures Prepared(row) == row <==> Consistent(row)
  {
  }

  /** The stored label depends on the height and weight only, never on the old label. */
  lemma PreparedLabelDependsOnMeasurements(r1: UserRow, r2: UserRow)
    requires r1.height == r2.height && r1.weight == r2.weight
    ensures Prepared(r1).bmiInterpretation == Prepared(r2).bmiInterpretation
  {
  }

  /** The error `create_user` raises. */
  datatype CreateUserError = MissingEmail

  /**
   * The row `create_user` persists: it refuses a missing or empty email,
   * otherwise it builds the user and saves it, which sets the label.
   */
  function CreateUserRow(email: Option<string>, height: Option<real>, weight: Option<real>)
    : (r: Result<UserRow, CreateUserError>)
    ensures r.Failure? <==> email.None? || email.value == ""
    ensures r.Success? ==>
      Consistent(r.value) && r.value.email == email.value
      && r.value.height == height && r.value.weight == weight
  {
    if email.None? || email.value == "" then Failure(MissingEmail)
    else Success(Prepared(UserRow(email.value, height, weight, None)))
  }

  /** A user object: its attributes, and the row last written for it. */
  class User {
    var email: string
    var height: Option<real>
    var weight: Option<real>
    var bmiInterpretation: Option<BmiLabel>
    /** The row persisted by the last `Save`, `None` before the first one. */
    var stored: Option<UserRow>

    /** An unsaved instance: the label column starts out null. */
    constructor (email: string, height: Option<real>, weight: Option<real>)
      ensures this.email == email && this.height == height && this.weight == weight
      ensures bmiInterpretation == None && stored == None
    {
      this.email := email;
      this.height := height;
      this.weight := weight;
      bmiInterpretation := None;
      stored := None;
    }

    /** The instance's current attributes as a row. */
    function Row(): UserRow
      reads this
    {
      UserRow(email, height, weight, bmiInterpretation)
    }

    /** The `bmi` property of the instance: present exactly when both measurements are truthy. */
    function Bmi(): (r: Option<real>)
      reads this
      ensures r.Some? <==> Truthy(height) && Truthy(weight)
      ensures r.Some? ==> r.value * height.value * height.value == 10000.0 * weight.value
    {
      BmiOf(height, weight)
    }

    /** Sets the label from the current measurements; touches nothing else. */
    method SetBmiInterpretation()
      modifies this`bmiInterpretation
      ensures bmiInterpretation == Classify(BmiOf(height, weight))
    {
      var bmiValue := Bmi();
      if bmiValue.None? {
        bmiInterpretation := None;
      } else if bmiValue.value < 18.5 {
        bmiInterpretation := Some(Underweight);
      } else if 18.5 <= bmiValue.value < 24.9 {
        bmiInterpretation := Some(NormalWeight);
      } else if 25.0 <= bmiValue.value < 29.9 {
        bmiInterpretation := Some(Overweight);
      } else {
        bmiInterpretation := Some(Obesity);
      }
    }

    /**
     * Recomputes the label, then persists the instance: the stored row is the
     * prepared form of the attributes, so it is never stale.
     */
    method Save()
      modifies this`bmiInterpretation, this`stored
      ensures stored == Some(Prepared(old(Row())))
      ensures stored == Some(Row()) && Consistent(Row())
    {
      SetBmiInterpretation();
      stored := Some(Row());
    }
  }

  /** Saving twice in a row writes the same row as saving once. */
  method SaveTwice(u: User)
    modifies u`bmiInterpretation, u`stored
    ensures u.Row() == Prepared(old(u.Row()))
    ensures u.stored == Some(Prepared(old(u.Row())))
  {
    u.Save();
    ghost var first := u.stored;
    u.Save();
    PreparedIdempotent(old(u.Row()));
    assert u.stored == first;
  }

  /**
   * `UserManager.create_user`: a missing or empty email raises before any
   * user exists; otherwise a new user is built from the fields and saved.
   */
  method CreateUser(email: Option<string>, height: Option<real>, weight: Option<real>)
    returns (r: Result<User, CreateUserError>)
    ensures r.Failure? <==> CreateUserRow(email, height, weight).Failure?
    ensures r.Success? ==>
      fresh(r.value) && r.value.stored == Some(CreateUserRow(email, height, weight).value)
      && r.value.Row() == CreateUserRow(email, height, weight).value
  {
    if email.None? || email.value == "" {
      return Failure(MissingEmail);
    }
    var user := new User(email.value, height, weight);
    user.Save();
    return Success(user);
  }
}
