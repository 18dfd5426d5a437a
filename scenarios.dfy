/** Concrete cases of the dashboard's rules on small lists, proved from the contracts. */
module Scenarios {
  import opened Records
  import opened Ids
  import opened Reconcile
  import opened Draft
  import opened Admin

  function P(id: string): Product { Entry(id, EmptyProductDraft) }

  /** Existing ids "2", "7" and "9" give the new id "10". */
  lemma NextIdAfterNine()
    ensures NextId([P("2"), P("7"), P("9")]) == "10"
  {
    var ps := [P("2"), P("7"), P("9")];
    assert ParseDecimal("2") == 2 by { assert "2"[..0] == []; }
    assert ParseDecimal("7") == 7 by { assert "7"[..0] == []; }
    assert ParseDecimal("9") == 9 by { assert "9"[..0] == []; }
    assert ps[..2][..1] == [P("2")];
    assert MaxParsedId(ps) == 9;
  }

  /** Deleting "5" from "1", "3", "5" leaves "1", "3"; deleting it again changes nothing. */
  lemma DeleteFiveTwice()
    ensures RemoveById([P("1"), P("3"), P("5")], "5") == [P("1"), P("3")]
    ensures RemoveById(RemoveById([P("1"), P("3"), P("5")], "5"), "5") == [P("1"), P("3")]
  {
    var ps := [P("1"), P("3"), P("5")];
    assert ps[1..][1..][1..] == [];
    RemoveByIdIdempotent(ps, "5");
  }

  /** A session: create a product on an empty list, edit it, then delete it. */
  method CreateEditDelete(name: string, cid: string)
    requires name != "" && cid != ""
  {
    var d := new AdminDashboard();
    d.BeginCreateProduct();
    d.SetProductName(name);
    d.SetProductCategory(cid);
    var sent := d.SubmitProduct(Some(Entry("1", d.newProduct)));
    assert sent.Post? && sent.body.id == "1";
    assert d.products == [Entry("1", ProductFields(name, Amount(0.0), true, [], [], cid))];
    assert d.newProduct == EmptyProductDraft && !d.showProductModal;

    var created := d.products[0];
    d.EditProduct(created);
    d.SetProductPrice(-1.0);
    sent := d.SubmitProduct(None);
    assert sent == NoRequest && d.productError == NegativePriceError;
    assert d.products == [created];

    d.SetProductPrice(5.0);
    var updated := Entry("1", created.fields.(price := Amount(5.0)));
    sent := d.SubmitProduct(Some(updated));
    assert sent.Put? && sent.id == "1";
    assert d.products == ReplaceById([created], "1", updated);
    ReplaceByIdAt([created], "1", updated);
    assert d.products == [updated] && d.editingProduct == None;

    var asked := d.DeleteProduct("1", false, true);
    assert d.products == [updated];
    asked := d.DeleteProduct("1", true, true);
    assert d.products == [];
  }
}
