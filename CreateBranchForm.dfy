/**
  The "new distribution branch" form: one record of eleven text fields,
  edited one field at a time, accepted when the three required fields are
  filled in and then cleared for the next entry.
 */
module CreateBranchForm {

  /** The names `handleInputChange` is called with, one per input of the form. */
  datatype Field =
    | BranchName | BranchType | Address | City | State | ZipCode
    | ContactPerson | Email | Phone | Capacity | Description

  datatype BranchData = BranchData(
    branchName: string,
    branchType: string,
    address: string,
    city: string,
    state: string,
    zipCode: string,
    contactPerson: string,
    email: string,
    phone: string,
    capacity: string,
    description: string)

  /** Every field empty: the initial state and the state after a successful submit. */
  const Empty := BranchData("", "", "", "", "", "", "", "", "", "", "")

  /** `formData[field]`. */
  function Get(d: BranchData, f: Field): string
  {
    match f
    case BranchName => d.branchName
    case BranchType => d.branchType
    case Address => d.address
    case City => d.city
    case State => d.state
    case ZipCode => d.zipCode
    case ContactPerson => d.contactPerson
    case Email => d.email
    case Phone => d.phone
    case Capacity => d.capacity
    case Description => d.description
  }

  /** `{ ...prev, [field]: value }`. */
  function Set(d: BranchData, f: Field, v: string): (e: BranchData)
    ensures Get(e, f) == v
    ensures forall g :: g != f ==> Get(e, g) == Get(d, g)
  {
    match f
    case BranchName => d.(branchName := v)
    case BranchType => d.(branchType := v)
    case Address => d.(address := v)
    case City => d.(city := v)
    case State => d.(state := v)
    case ZipCode => d.(zipCode := v)
    case ContactPerson => d.(contactPerson := v)
    case Email => d.(email := v)
    case Phone => d.(phone := v)
    case Capacity => d.(capacity := v)
    case Description => d.(description := v)
  }

  predicate IsRequired(f: Field)
  {
    f == BranchName || f == BranchType || f == Address
  }

  /** The submit's validation: branch name, branch type and address are non-empty. */
  predicate HasRequired(d: BranchData)
  {
    d.branchName != "" && d.branchType != "" && d.address != ""
  }

  /** Setting a field to its current value changes nothing. */
  lemma SetToCurrentIsNoOp(d: BranchData, f: Field)
    ensures Set(d, f, Get(d, f)) == d
  {
  }

  /** Two records that agree on the three required fields are both accepted or both rejected. */
  lemma ValidityDependsOnlyOnRequired(d: BranchData, e: BranchData)
    requires forall f :: IsRequired(f) ==> Get(d, f) == Get(e, f)
    ensures HasRequired(d) <==> HasRequired(e)
  {
    assert Get(d, BranchName) == Get(e, BranchName);
    assert Get(d, BranchType) == Get(e, BranchType);
    assert Get(d, Address) == Get(e, Address);
  }

  /** Editing an optional field never changes whether the form is accepted. */
  lemma OptionalFieldsDoNotMatter(d: BranchData, f: Field, v: string)
    requires !IsRequired(f)
    ensures HasRequired(Set(d, f, v)) <==> HasRequired(d)
  {
    ValidityDependsOnlyOnRequired(Set(d, f, v), d);
  }

  /** Accepted exactly when no required field is empty. */
  lemma HasRequiredMeansNoRequiredFieldEmpty(d: BranchData)
    ensures HasRequired(d) <==> forall f :: IsRequired(f) ==> Get(d, f) != ""
  {
    if !HasRequired(d) {
      if d.branchName == "" {
        assert Get(d, BranchName) == "";
      } else if d.branchType == "" {
        assert Get(d, BranchType) == "";
      } else {
        assert Get(d, Address) == "";
      }
    }
  }

  /** The empty record is rejected, and so is every record whose branch name alone is filled in. */
  lemma EmptyIsRejected(v: string)
    ensures !HasRequired(Empty)
    ensures !HasRequired(Set(Empty, BranchName, v))
  {
  }

  /** The form's state: the one `formData` record. */
  class CreateBranchFormState {
    var formData: BranchData

    constructor ()
      ensures formData == Empty
    {
      formData := Empty;
    }

    /** `handleInputChange(field, value)`: the named field takes the value, the other ten keep theirs. */
    method HandleInputChange(f: Field, v: string)
      modifies this
      ensures formData == Set(old(formData), f, v)
      ensures Get(formData, f) == v
      ensures forall g :: g != f ==> Get(formData, g) == Get(old(formData), g)
    {
      formData := Set(formData, f, v);
    }

    /**
      `handleSubmit`: a record missing a required field is refused (the
      "Missing Required Fields" toast) and kept as it is; an accepted one is
      announced and the form is cleared.
     */
    method HandleSubmit() returns (accepted: bool)
      modifies this
      ensures accepted <==> HasRequired(old(formData))
      ensures accepted ==> formData == Empty
      ensures !accepted ==> formData == old(formData)
    {
      if formData.branchName == "" || formData.branchType == "" || formData.address == "" {
        accepted := false;
        return;
      }
      accepted := true;
      formData := Empty;
    }
  }
}
