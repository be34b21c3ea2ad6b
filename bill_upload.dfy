/** The bill form: its four fields, the submit handler with its two guards, the
    remove-by-id filter and the plan's limit caption. */
module BillUpload {
  import opened Records

  /** What pressing "submit" leads to: one of the two alerts, or the new list
      handed to the page. */
  datatype SubmitOutcome = MissingFieldsAlert | LimitAlert | Submitted(bills: seq<Bill>)

  /** The image of a new bill: the preview when there is a non-empty one, else none. */
  function ImageOf(preview: Option<string>): (r: Option<string>)
    ensures r.Some? <==> preview.Some? && preview.value != ""
    ensures r.Some? ==> r == preview
  {
    if preview.Some? && preview.value != "" then preview else None
  }

  class BillForm {
    var month: string
    var consumption: string
    var value: string
    var imagePreview: Option<string>

    constructor ()
      ensures month == "" && consumption == "" && value == "" && imagePreview == None
    {
      month, consumption, value, imagePreview := "", "", "", None;
    }

    /** Typing into the fields. */
    method Fill(month: string, consumption: string, value: string)
      modifies this
      ensures this.month == month && this.consumption == consumption && this.value == value
      ensures imagePreview == old(imagePreview)
    {
      this.month, this.consumption, this.value := month, consumption, value;
    }

    /** A photo was read; `image` is its data URL, opaque here. */
    method AttachImage(image: string)
      modifies this
      ensures imagePreview == Some(image)
      ensures month == old(month) && consumption == old(consumption) && value == old(value)
    {
      imagePreview := Some(image);
    }

    /** The remove button on the preview drops the photo. */
    method ClearImage()
      modifies this
      ensures imagePreview == None
      ensures month == old(month) && consumption == old(consumption) && value == old(value)
    {
      imagePreview := None;
    }

    /** Submit: an empty field alerts first, then a refused quota alerts; otherwise
        the old bills followed by exactly one new bill are handed on, and only then
        is the form cleared. `id` is the fresh identifier, `now` the creation
        month, `parseNumber` the number parser. */
    method Submit(bills: seq<Bill>, canUpload: bool, id: string, now: Stamp, parseNumber: string -> real)
      returns (outcome: SubmitOutcome)
      modifies this
      ensures outcome == MissingFieldsAlert <==> old(month == "" || consumption == "" || value == "")
      ensures outcome == LimitAlert <==> old(month != "" && consumption != "" && value != "") && !canUpload
      ensures outcome.Submitted? ==>
        outcome.bills == bills + [Bill(id, old(month), parseNumber(old(consumption)), parseNumber(old(value)),
                                       ImageOf(old(imagePreview)), now)]
      ensures outcome.Submitted? ==> month == "" && consumption == "" && value == "" && imagePreview == None
      ensures !outcome.Submitted? ==>
        month == old(month) && consumption == old(consumption) && value == old(value) && imagePreview == old(imagePreview)
    {
      if month == "" || consumption == "" || value == "" {
        return MissingFieldsAlert;
      }
      if !canUpload {
        return LimitAlert;
      }
      var newBill := Bill(id, month, parseNumber(consumption), parseNumber(value), ImageOf(imagePreview), now);
      outcome := Submitted(bills + [newBill]);
      month, consumption, value, imagePreview := "", "", "", None;
    }
  }

  /** The bills without those carrying `id`, the rest in their original order. */
  function RemoveById(bills: seq<Bill>, id: string): (r: seq<Bill>)
    ensures |r| <= |bills|
    ensures forall b :: b in r <==> b in bills && b.id != id
  {
    if bills == [] then []
    else if bills[0].id == id then RemoveById(bills[1..], id)
    else [bills[0]] + RemoveById(bills[1..], id)
  }

  /** Removing distributes over concatenation: relative order is kept. */
  lemma {:induction false} RemoveByIdAppend(a: seq<Bill>, b: seq<Bill>, id: string)
    ensures RemoveById(a + b, id) == RemoveById(a, id) + RemoveById(b, id)
  {
    if a == [] {
      assert a + b == b;
    } else {
      assert (a + b)[0] == a[0];
      assert (a + b)[1..] == a[1..] + b;
      RemoveByIdAppend(a[1..], b, id);
    }
  }

  /** Removing an identifier no bill carries changes nothing. */
  lemma {:induction false} RemoveAbsentId(bills: seq<Bill>, id: string)
    requires forall b :: b in bills ==> b.id != id
    ensures RemoveById(bills, id) == bills
  {
    if bills != [] {
      assert bills == [bills[0]] + bills[1..];
      RemoveAbsentId(bills[1..], id);
    }
  }

  /** Removing the bill just submitted, when its identifier is fresh, gives back
      the list from before the submit. */
  lemma RemoveUndoesSubmit(bills: seq<Bill>, b: Bill)
    requires forall x :: x in bills ==> x.id != b.id
    ensures RemoveById(bills + [b], b.id) == bills
  {
    RemoveByIdAppend(bills, [b], b.id);
    RemoveAbsentId(bills, b.id);
    assert [b][1..] == [];
  }

  /** The caption of the plan's upload limit. */
  function UploadLimitText(plan: Plan): (r: string)
    ensures plan == Free ==> r == [DigitChar(FreeMonthlyQuota)] + " contas/mês"
    ensures plan != Free ==> r == "Ilimitado"
  {
    if plan == Free then "3 contas/mês" else "Ilimitado"
  }

  function DigitChar(n: nat): char
    requires n < 10
  {
    ('0' as int + n) as char
  }
}
