/**
 * Choosing and normalising the instance URL (rotate-tokens.py:31-42): the
 * command-line value, else the GITLAB_INSTANCE environment variable, else
 * gitlab.com; a value without "//" gets an https:// prefix, and one trailing
 * slash is dropped. Reading the command line and the environment is not
 * modelled: their values are the parameters.
 */
module Instance {
  import opened Wrappers

  const DefaultInstance: string := "https://gitlab.com"

  /** `'//' in s`. */
  function HasDoubleSlash(s: string): (b: bool)
    ensures b <==> exists i :: 0 <= i < |s| - 1 && s[i] == '/' && s[i + 1] == '/'
  {
    if |s| < 2 then false
    else (s[0] == '/' && s[1] == '/') || HasDoubleSlash(s[1..])
  }

  /** The URL a given instance value (`None` when neither the argument nor
      the environment gave one) normalises to. */
  function Normalise(given: Option<string>): (url: string)
    ensures given.None? ==> url == DefaultInstance
    ensures given.Some? && !HasDoubleSlash(given.value) && given.value != "" ==>
              |url| >= 8 && url[..8] == "https://"
    ensures given.Some? ==>
              var prefixed := if HasDoubleSlash(given.value) then given.value else "https://" + given.value;
              prefixed == url || prefixed == url + "/"
    ensures given.Some? ==>
              var prefixed := if HasDoubleSlash(given.value) then given.value else "https://" + given.value;
              prefixed[|prefixed| - 1] == '/' ==> url == prefixed[..|prefixed| - 1]
    ensures given.Some? && HasDoubleSlash(given.value) && given.value[|given.value| - 1] != '/' ==>
              url == given.value
  {
    match given
    case None => DefaultInstance
    case Some(v) =>
      var prefixed := if HasDoubleSlash(v) then v else "https://" + v;
      if prefixed[|prefixed| - 1] == '/' then prefixed[..|prefixed| - 1] else prefixed
  }

  /** The assignments to `args.instance`, one after the other. */
  method ResolveInstance(argument: Option<string>, environment: Option<string>) returns (instance: string)
    ensures instance == Normalise(if argument.Some? then argument else environment)
  {
    var given := argument;
    if given.None? {
      given := environment;
    }
    if given.None? {
      return DefaultInstance;
    }
    instance := given.value;
    if !HasDoubleSlash(instance) {
      instance := "https://" + instance;
    }
    if instance[|instance| - 1] == '/' {
      instance := instance[..|instance| - 1];
    }
  }

  /** Normalising is not idempotent: "a//" keeps its double slash and loses
      one trailing slash, and the result "a/" has none left. */
  lemma NotIdempotent()
    ensures Normalise(Some("a//")) == "a/"
    ensures Normalise(Some("a/")) == "https://a"
  {
    assert HasDoubleSlash("a//") by {
      assert "a//"[1] == '/' && "a//"[2] == '/';
    }
    assert !HasDoubleSlash("a/") by {
      assert "a/"[1..] == "/";
    }
  }

  /** An empty value, such as an empty GITLAB_INSTANCE, becomes "https:/". */
  lemma EmptyValue()
    ensures Normalise(Some("")) == "https:/"
  {
  }
}
