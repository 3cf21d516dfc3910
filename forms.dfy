/** The shape every form of the client shares: a validator gives each field
    a message (the empty message meaning the field is fine), and
    `validateForm` runs it over the keys of `formData`, storing each message
    and clearing a validity flag whenever one is non-empty. */
module Forms {
  import opened Js

  /** Field name to message. */
  type Errors = map<string, string>

  /** The messages `validate` gives the keys of `form` that are `checked`. */
  function Messages(form: Object, checked: set<string>, validate: (string, Value) --> string): (m: Errors)
    requires forall k :: k in checked && k in form ==> validate.requires(k, form[k])
    ensures m.Keys == checked * form.Keys
    ensures forall k :: k in m ==> m[k] == validate(k, form[k])
  {
    map k | k in checked && k in form :: validate(k, form[k])
  }

  /** Every stored message is empty. */
  predicate AllEmpty(m: Errors) {
    forall k :: k in m ==> m[k] == ""
  }

  /** The errors after the loop has visited `keys` in order, starting from
      `base`: each visited key that is checked has its message written. */
  function Written(base: Errors, form: Object, keys: seq<string>, checked: set<string>,
                   validate: (string, Value) --> string): Errors
    requires forall k :: k in checked && k in form ==> validate.requires(k, form[k])
    requires forall i :: 0 <= i < |keys| ==> keys[i] in form
  {
    if keys == [] then base
    else
      var k := keys[|keys| - 1];
      var e := Written(base, form, keys[..|keys| - 1], checked, validate);
      if k in checked then e[k := validate(k, form[k])] else e
  }

  /** Whatever the order of the visit, the result is `base` with the
      messages of the visited checked keys laid over it. */
  lemma {:induction false} WrittenOverlay(base: Errors, form: Object, keys: seq<string>, checked: set<string>,
                                          validate: (string, Value) --> string)
    requires forall k :: k in checked && k in form ==> validate.requires(k, form[k])
    requires forall i :: 0 <= i < |keys| ==> keys[i] in form
    ensures var e := Written(base, form, keys, checked, validate);
            && (forall k :: k in e <==> k in base || (k in checked && k in keys))
            && (forall k :: k in e ==> e[k] == if k in checked && k in keys then validate(k, form[k]) else base[k])
  {
    if keys != [] {
      var init := keys[..|keys| - 1];
      WrittenOverlay(base, form, init, checked, validate);
      assert forall k :: k in keys <==> k in init || k == keys[|keys| - 1];
    }
  }

  /** The key loop of `validateForm`: `Object.keys(formData).forEach`
      visits every key of the form once (`keys`, in the browser's order);
      a key that is checked has its message written over `base` and clears
      the flag when the message is non-empty. */
  method ValidateKeys(form: Object, keys: seq<string>, checked: set<string>, base: Errors,
                      validate: (string, Value) --> string)
    returns (errors: Errors, valid: bool)
    requires forall k :: k in checked && k in form ==> validate.requires(k, form[k])
    requires forall k :: k in form <==> k in keys
    ensures errors == base + Messages(form, checked, validate)
    ensures valid <==> AllEmpty(Messages(form, checked, validate))
  {
    errors := base;
    valid := true;
    for n := 0 to |keys|
      invariant errors == Written(base, form, keys[..n], checked, validate)
      invariant valid <==> forall i :: 0 <= i < n && keys[i] in checked ==> validate(keys[i], form[keys[i]]) == ""
    {
      var k := keys[n];
      assert keys[..n + 1][..n] == keys[..n];
      if k in checked {
        var m := validate(k, form[k]);
        errors := errors[k := m];
        if m != "" {
          valid := false;
        }
      }
    }
    assert keys[..|keys|] == keys;
    WrittenOverlay(base, form, keys, checked, validate);
    OverlayPointwise(errors, base, Messages(form, checked, validate));
  }

  /** Two maps agree with an overlay when they agree key by key. */
  lemma OverlayPointwise(e: Errors, base: Errors, m: Errors)
    requires e.Keys == base.Keys + m.Keys
    requires forall k :: k in e ==> e[k] == if k in m then m[k] else base[k]
    ensures e == base + m
  {
  }

  /** Laying messages over an empty map gives the messages themselves. */
  lemma EmptyOverlay(m: Errors)
    ensures map[] + m == m
  {
  }

  /** `Object.keys(o)`: every key once, in an order the model leaves open. */
  method Keys(o: Object) returns (keys: seq<string>)
    ensures forall k :: k in o <==> k in keys
    ensures forall i, j :: 0 <= i < j < |keys| ==> keys[i] != keys[j]
  {
    keys := [];
    var todo := o.Keys;
    while todo != {}
      invariant todo <= o.Keys
      invariant forall k :: k in o <==> k in keys || k in todo
      invariant forall k :: k in keys ==> k !in todo
      invariant forall i, j :: 0 <= i < j < |keys| ==> keys[i] != keys[j]
      decreases |todo|
    {
      var k :| k in todo;
      keys := keys + [k];
      todo := todo - {k};
    }
  }
}
