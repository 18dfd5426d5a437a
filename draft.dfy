/** What the product form does to its draft: the submit-time validation and the
    ordered-sequence edits of its images and sizes. */
module Draft {
  import opened Records

  const RequiredFieldsError: string := "Please fill out all required fields."
  const NegativePriceError: string := "Price cannot be less than 0."

  /** A draft that may be sent: a name, a price of at least 0 and a category. */
  predicate ReadyToSubmit(f: ProductFields) {
    f.name != "" && f.price.Amount? && f.price.value >= 0.0 && f.cid != ""
  }

  /** The submit handler's checks, in its order: the error it shows, or None to send. */
  function ValidateDraft(f: ProductFields): (err: Option<string>)
    ensures err == Some(RequiredFieldsError) <==> f.name == "" || f.price == Blank || f.cid == ""
    ensures err == Some(NegativePriceError) <==>
      f.name != "" && f.cid != "" && f.price.Amount? && f.price.value < 0.0
    ensures err == None <==> ReadyToSubmit(f)
  {
    if f.name == "" || f.price == Blank || f.cid == "" then Some(RequiredFieldsError)
    else if f.price.value < 0.0 then Some(NegativePriceError)
    else None
  }

  /** Where `Array.prototype.splice(start, 1)` starts on a list of length n:
      a negative start counts from the end, and both ends are clamped. */
  function SpliceStart(n: nat, start: int): (k: nat)
    ensures k <= n
    ensures 0 <= start <= n ==> k == start
    ensures start < 0 && 0 <= n + start ==> k == n + start
    ensures n + start < 0 ==> k == 0
    ensures start > n ==> k == n
  {
    if start < 0 then (if n + start < 0 then 0 else n + start)
    else if start > n then n
    else start
  }

  /** The list `splice(start, 1)` leaves: one element removed at the clamped start,
      or none when the start is at or past the end. */
  function Splice<T>(s: seq<T>, start: int): (r: seq<T>)
    ensures var k := SpliceStart(|s|, start);
      if k < |s| then
        |r| == |s| - 1 &&
        (forall j :: 0 <= j < k ==> r[j] == s[j]) &&
        (forall j :: k <= j < |r| ==> r[j] == s[j + 1])
      else r == s
  {
    var k := SpliceStart(|s|, start);
    if k < |s| then s[..k] + s[k + 1..] else s
  }

  /** Removing an element loses exactly that element: the multiset of the rest
      together with it is the multiset of the original. */
  lemma SpliceRemovesOne<T>(s: seq<T>, i: int)
    requires 0 <= i < |s|
    ensures multiset(Splice(s, i)) + multiset{s[i]} == multiset(s)
    ensures Splice(s, i) == s[..i] + s[i + 1..]
  {
    assert s == s[..i] + [s[i]] + s[i + 1..];
  }

  /** Image display indices run 1, 2, ... in order. */
  predicate Numbered(images: seq<Image>) {
    forall i :: 0 <= i < |images| ==> images[i].id == i + 1
  }

  /** The blank image the "Add Image" button appends. */
  function NewImage(images: seq<Image>): (img: Image)
    ensures img.name == "" && img.id == |images| + 1
  {
    Image(|images| + 1, "")
  }

  /** Adding images to a list numbered 1..n keeps it numbered 1..n+1. */
  lemma AddImageKeepsNumbering(images: seq<Image>)
    requires Numbered(images)
    ensures Numbered(images + [NewImage(images)])
  {
  }

  /** Removing an image does not renumber the rest: removing any image but the
      last from a list numbered 1..n and then adding one gives a list of n images
      whose last two both carry the display index n. */
  lemma RemoveThenAddRepeatsIndex(s: seq<Image>, i: int)
    requires Numbered(s) && 0 <= i < |s| - 1
    ensures var rest := Splice(s, i);
      var after := rest + [NewImage(rest)];
      |after| == |s| && after[|s| - 2].id == after[|s| - 1].id == |s|
  {
    var rest := Splice(s, i);
    assert rest[|s| - 2] == s[|s| - 1];
  }
}
