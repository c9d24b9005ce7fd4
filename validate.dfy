/** `validate_required_properties`: every required property must extract to a truthy value. */
module Validate {
  import opened Notion
  import opened Extract

  /** Every configured required property extracts to a non-empty string; so
      each one is on the page, under an entry of its declared kind. */
  predicate AllRequiredPresent(page: Page, required: seq<PropSpec>): (present: bool)
    ensures present ==> forall i :: 0 <= i < |required| ==>
                          required[i].name in page.properties
                          && KindMatches(required[i].kind, page.properties[required[i].name])
  {
    forall i :: 0 <= i < |required| ==> Truthy(ExtractPropertyValue(page, required[i].name, required[i].kind))
  }

  /** The loop of `validate_required_properties`, leaving at the first missing property. */
  method ValidateRequiredProperties(page: Page, config: Config) returns (valid: bool)
    ensures valid <==> AllRequiredPresent(page, config.required)
  {
    for i := 0 to |config.required|
      invariant forall j :: 0 <= j < i ==>
                  Truthy(ExtractPropertyValue(page, config.required[j].name, config.required[j].kind))
    {
      var value := ExtractPropertyValue(page, config.required[i].name, config.required[i].kind);
      if !Truthy(value) {
        return false;
      }
    }
    return true;
  }

  /** No required properties means nothing can be missing. */
  lemma NoRequiredValidates(page: Page)
    ensures AllRequiredPresent(page, [])
  {
  }

  /** A page whose required property is absent, or present but empty (an
      empty title, people without names), fails validation; giving that
      property a value that extracts to a non-empty string makes it pass,
      provided the other required properties already did. */
  lemma FillingMissingValidates(page: Page, others: seq<PropSpec>, missing: PropSpec, filled: Property)
    requires AllRequiredPresent(page, others)
    requires forall i :: 0 <= i < |others| ==> others[i].name != missing.name
    requires !Truthy(ExtractPropertyValue(page, missing.name, missing.kind))
    requires Truthy(PropertyValue(filled, missing.kind))
    ensures !AllRequiredPresent(page, others + [missing])
    ensures AllRequiredPresent(page.(properties := page.properties[missing.name := filled]), others + [missing])
  {
    var all := others + [missing];
    assert all[|others|] == missing;
    var page' := page.(properties := page.properties[missing.name := filled]);
    forall i | 0 <= i < |all|
      ensures Truthy(ExtractPropertyValue(page', all[i].name, all[i].kind))
    {
      if i < |others| {
        assert all[i] == others[i];
        assert page'.properties[others[i].name] == page.properties[others[i].name];
      }
    }
  }
}
