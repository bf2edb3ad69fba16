/**
 * Configuration of the parsing engine: the `merge(a, b)` helper of
 * index.js copies every own key of the caller's options `b` onto the
 * engine instance `a`, in place, and returns `a`.
 */
module Options {

  /** A configuration value: `encoding` and `uploadDir` are text, `keepExtensions` a flag. */
  datatype OptionValue = Text(text: string) | Flag(flag: bool) | Number(number: int)

  /**
   * The parsing engine instance, seen only as the bag of configuration
   * properties that `merge` writes into. Its defaults are a parameter.
   */
  class FormParser {
    var settings: map<string, OptionValue>

    constructor (defaults: map<string, OptionValue>)
      ensures settings == defaults
    {
      settings := defaults;
    }
  }

  /** `Object.keys(b)`: every key of `b` exactly once, in some order. */
  method KeysOf(b: map<string, OptionValue>) returns (keys: seq<string>)
    ensures forall k :: k in keys <==> k in b
    ensures forall i, j :: 0 <= i < j < |keys| ==> keys[i] != keys[j]
  {
    keys := [];
    var rest := b.Keys;
    while rest != {}
      invariant rest <= b.Keys
      invariant forall k :: k in keys <==> k in b && k !in rest
      invariant forall i, j :: 0 <= i < j < |keys| ==> keys[i] != keys[j]
      decreases |rest|
    {
      var k :| k in rest;
      keys := keys + [k];
      rest := rest - {k};
    }
  }

  /**
   * `merge(a, b)`: afterwards every key of `b` carries `b`'s value, every
   * other key of `a` is as it was, no other key appears, and the result is
   * `a` itself.
   */
  method Merge(a: FormParser, b: map<string, OptionValue>) returns (r: FormParser)
    modifies a
    ensures r == a
    ensures a.settings.Keys == old(a.settings).Keys + b.Keys
    ensures forall k :: k in b ==> a.settings[k] == b[k]
    ensures forall k :: k in old(a.settings) && k !in b ==> a.settings[k] == old(a.settings)[k]
  {
    var keys := KeysOf(b);
    for i := 0 to |keys|
      invariant forall k :: k in a.settings <==> k in old(a.settings) || k in keys[..i]
      invariant forall k :: k in keys[..i] ==> a.settings[k] == b[k]
      invariant forall k :: k in old(a.settings) && k !in keys[..i] ==> a.settings[k] == old(a.settings)[k]
    {
      assert keys[..i + 1] == keys[..i] + [keys[i]];
      a.settings := a.settings[keys[i] := b[keys[i]]];
    }
    assert keys[..|keys|] == keys;
    r := a;
  }
}
