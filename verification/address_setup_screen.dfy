/** The onboarding address screen: a location step (detect, enter manually
    or skip) and a details form whose submit is enabled only when the
    required fields are filled.  The simulated detection delay is modelled
    as an immediate transition. */
module AddressSetupScreen {
  import opened Types
  import Decimal

  const PhoneDigits: nat := 10
  const PincodeDigits: nat := 6

  /** The landmark and the address type play no part in validity. */
  lemma OptionalFields(f: AddressFields, landmark: string, t: AddressType)
    ensures RequiredFilled(f.(landmark := landmark, addressType := t)) == RequiredFilled(f)
  {
  }

  datatype Field = Name | Phone | Pincode | City | State | Street | Landmark

  function Get(f: AddressFields, field: Field): string {
    match field
    case Name => f.name
    case Phone => f.phone
    case Pincode => f.pincode
    case City => f.city
    case State => f.state
    case Street => f.street
    case Landmark => f.landmark
  }

  /** handleInputChange for a text field: that field takes the value and no
      other field changes. */
  function WithField(f: AddressFields, field: Field, value: string): (r: AddressFields)
    ensures Get(r, field) == value
    ensures forall g :: g != field ==> Get(r, g) == Get(f, g)
    ensures r.addressType == f.addressType
  {
    match field
    case Name => f.(name := value)
    case Phone => f.(phone := value)
    case Pincode => f.(pincode := value)
    case City => f.(city := value)
    case State => f.(state := value)
    case Street => f.(street := value)
    case Landmark => f.(landmark := value)
  }

  /** What "Use Current Location" fills in. */
  function Detected(f: AddressFields): (r: AddressFields)
    ensures r.pincode == "110001" && r.city == "New Delhi" && r.state == "Delhi"
    ensures r.name == f.name && r.phone == f.phone && r.street == f.street
    ensures r.landmark == f.landmark && r.addressType == f.addressType
  {
    f.(pincode := "110001", city := "New Delhi", state := "Delhi")
  }

  /** Detection alone never makes a blank form valid: name, phone and street
      are still to be typed. */
  lemma DetectionNeedsDetails()
    ensures !RequiredFilled(Detected(EmptyForm))
  {
  }

  datatype SetupStep = LocationStep | DetailsStep

  predicate DigitsAtMost(s: string, n: nat) {
    |s| <= n && forall i :: 0 <= i < |s| ==> Decimal.IsDigit(s[i])
  }

  class SetupForm {
    var step: SetupStep
    var formData: AddressFields

    /** The phone holds at most ten digits and the pincode at most six. */
    ghost predicate Valid()
      reads this
    {
      DigitsAtMost(formData.phone, PhoneDigits) && DigitsAtMost(formData.pincode, PincodeDigits)
    }

    constructor ()
      ensures step == LocationStep && formData == EmptyForm
      ensures Valid()
    {
      step := LocationStep;
      formData := EmptyForm;
    }

    /** A free-text field of the details form. */
    method TextInput(field: Field, value: string)
      requires Valid() && field != Phone && field != Pincode
      modifies this`formData
      ensures formData == WithField(old(formData), field, value)
      ensures Valid()
    {
      formData := WithField(formData, field, value);
    }

    method PhoneInput(raw: string)
      requires Valid()
      modifies this`formData
      ensures formData == WithField(old(formData), Phone, Decimal.Sanitize(raw, PhoneDigits))
      ensures Valid()
    {
      formData := WithField(formData, Phone, Decimal.Sanitize(raw, PhoneDigits));
    }

    method PincodeInput(raw: string)
      requires Valid()
      modifies this`formData
      ensures formData == WithField(old(formData), Pincode, Decimal.Sanitize(raw, PincodeDigits))
      ensures Valid()
    {
      formData := WithField(formData, Pincode, Decimal.Sanitize(raw, PincodeDigits));
    }

    method ChooseType(t: AddressType)
      requires Valid()
      modifies this`formData
      ensures formData == old(formData).(addressType := t)
      ensures Valid()
    {
      formData := formData.(addressType := t);
    }

    /** detectLocation, once the simulated lookup completes. */
    method DetectLocation()
      requires Valid()
      modifies this
      ensures formData == Detected(old(formData)) && step == DetailsStep
      ensures Valid()
    {
      formData := Detected(formData);
      step := DetailsStep;
    }

    method EnterManually()
      modifies this`step
      ensures step == DetailsStep
    {
      step := DetailsStep;
    }

    method BackToLocation()
      modifies this`step
      ensures step == LocationStep
    {
      step := LocationStep;
    }

    /** The submit button is disabled until the form is valid; an enabled
        submit hands the form data on unchanged. */
    method Submit() returns (submitted: Option<AddressFields>)
      ensures submitted.Some? <==> RequiredFilled(formData)
      ensures submitted.Some? ==> submitted.value == formData
    {
      if RequiredFilled(formData) {
        submitted := Some(formData);
      } else {
        submitted := None;
      }
    }
  }
}
