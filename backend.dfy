/** The backend's in-memory store of short codes and the endpoints over it
    (src/backend/main.py). The random source behind `random.choices` is a
    parameter: a draw is an index into the 62-character alphabet. */
module Backend {

  /** An endpoint's outcome: a JSON body, or an `HTTPException` with its status
      code and detail. */
  datatype HttpResult<T> = Ok(value: T) | HttpError(status: nat, detail: string)

  const DefaultCodeLength: nat := 6

  predicate IsCodeChar(c: char) {
    'a' <= c <= 'z' || 'A' <= c <= 'Z' || '0' <= c <= '9'
  }

  predicate IsShortCode(s: string) {
    |s| == DefaultCodeLength && forall i | 0 <= i < |s| :: IsCodeChar(s[i])
  }

  /** The i-th character of `string.ascii_letters + string.digits`: "a" to "z",
      then "A" to "Z", then "0" to "9". */
  function AlphabetChar(i: nat): (c: char)
    requires i < 62
    ensures IsCodeChar(c)
  {
    if i < 26 then ('a' as int + i) as char
    else if i < 52 then ('A' as int + (i - 26)) as char
    else ('0' as int + (i - 52)) as char
  }

  /** Where a letter or digit stands in the alphabet. */
  function AlphabetIndex(c: char): (i: nat)
    requires IsCodeChar(c)
    ensures i < 62 && AlphabetChar(i) == c
  {
    if 'a' <= c <= 'z' then c as int - 'a' as int
    else if 'A' <= c <= 'Z' then 26 + (c as int - 'A' as int)
    else 52 + (c as int - '0' as int)
  }

  /** `generate_short_code(length)`: one alphabet character per draw. */
  function GenerateShortCode(draws: seq<nat>, length: nat := DefaultCodeLength): (code: string)
    requires |draws| == length
    ensures |code| == length
    ensures forall i | 0 <= i < length :: IsCodeChar(code[i]) && code[i] == AlphabetChar(draws[i] % 62)
  {
    seq(length, i requires 0 <= i < length => AlphabetChar(draws[i] % 62))
  }

  /** Every string of letters and digits is some run of draws' code: the generator
      can produce any code of the requested length. */
  lemma {:induction false} GenerateShortCodeCoversAll(code: string)
    requires forall i | 0 <= i < |code| :: IsCodeChar(code[i])
    ensures exists draws: seq<nat> | |draws| == |code| :: GenerateShortCode(draws, |code|) == code
  {
    var draws := seq(|code|, i requires 0 <= i < |code| => AlphabetIndex(code[i]));
    assert GenerateShortCode(draws, |code|) == code;
  }

  /** No two codes map to the same url. */
  ghost predicate Injective(m: map<string, string>) {
    forall a, b | a in m && b in m && a != b :: m[a] != m[b]
  }

  const AlreadyShortened: string := "URL was already shortened previously"
  const NotFound: string := "Short URL not found"
  const InvalidParameter: string := "Invalid parameter value"
  const ExamplePrefix: string := "This is an example endpoint with parameter: "

  /** The module-level `url_store` dict and the endpoints that use it. */
  class UrlStore {
    var urlStore: map<string, string>

    /** The store is injective and every key is a generated code. */
    ghost predicate Valid()
      reads this
    {
      Injective(urlStore) && forall c | c in urlStore :: IsShortCode(c)
    }

    constructor ()
      ensures Valid() && urlStore == map[]
    {
      urlStore := map[];
    }

    /** `shorten_url`. `attempts` are the successive draws of the retry loop; the
        loop returns only once a draw gives an unused code, so the runs modelled
        are those in which some attempt does. */
    method ShortenUrl(url: string, attempts: seq<seq<nat>>) returns (r: HttpResult<string>)
      requires Valid()
      requires forall k | 0 <= k < |attempts| :: |attempts[k]| == DefaultCodeLength
      requires url !in urlStore.Values ==>
                 exists k | 0 <= k < |attempts| :: GenerateShortCode(attempts[k]) !in urlStore
      modifies this
      ensures Valid()
      ensures old(url in urlStore.Values) ==>
                r == HttpError(400, AlreadyShortened) && urlStore == old(urlStore)
      ensures old(url !in urlStore.Values) ==>
                && r.Ok?
                && IsShortCode(r.value)
                && r.value !in old(urlStore)
                && urlStore == old(urlStore)[r.value := url]
                && |urlStore| == |old(urlStore)| + 1
                && GetLongUrl(r.value) == Ok(url)
      ensures r.Ok? ==> exists k | 0 <= k < |attempts| ::
                          && r.value == GenerateShortCode(attempts[k])
                          && forall j | 0 <= j < k :: GenerateShortCode(attempts[j]) in old(urlStore)
    {
      if url in urlStore.Values {
        return HttpError(400, AlreadyShortened);
      }
      var k := 0;
      var shortCode := GenerateShortCode(attempts[0]);
      while shortCode in urlStore
        invariant 0 <= k < |attempts|
        invariant shortCode == GenerateShortCode(attempts[k])
        invariant forall j | 0 <= j < k :: GenerateShortCode(attempts[j]) in urlStore
        decreases |attempts| - k
      {
        k := k + 1;
        shortCode := GenerateShortCode(attempts[k]);
      }
      ghost var before := urlStore;
      urlStore := urlStore[shortCode := url];
      forall a, b | a in urlStore && b in urlStore && a != b
        ensures urlStore[a] != urlStore[b]
      {
        if a != shortCode && b != shortCode {
          assert before[a] != before[b];
        } else if a == shortCode {
          assert before[b] in before.Values;
        } else {
          assert before[a] in before.Values;
        }
      }
      r := Ok(shortCode);
    }

    /** `get_long_url`: the stored url for a known code, 404 otherwise; the store
        is only read. */
    function GetLongUrl(shortCode: string): (r: HttpResult<string>)
      reads this
      ensures r.Ok? <==> shortCode in urlStore
      ensures r.Ok? ==> r.value == urlStore[shortCode]
      ensures r.HttpError? ==> r == HttpError(404, NotFound)
    {
      if shortCode in urlStore then Ok(urlStore[shortCode])
      else HttpError(404, NotFound)
    }

    /** Injectivity read back: two codes that resolve to the same url are the same
        code. */
    lemma LookupDeterminesCode(a: string, b: string)
      requires Valid()
      requires GetLongUrl(a).Ok? && GetLongUrl(a) == GetLongUrl(b)
      ensures a == b
    {
    }
  }

  /** `example_endpoint`: 400 for the parameter "error", otherwise a message that
      ends with the parameter, which can be read back from it. */
  function ExampleEndpoint(param: string): (r: HttpResult<string>)
    ensures r.HttpError? <==> param == "error"
    ensures r.HttpError? ==> r == HttpError(400, InvalidParameter)
    ensures r.Ok? ==> |r.value| == |ExamplePrefix| + |param|
                      && r.value[..|ExamplePrefix|] == ExamplePrefix
                      && r.value[|ExamplePrefix|..] == param
  {
    if param == "error" then HttpError(400, InvalidParameter)
    else Ok(ExamplePrefix + param)
  }
}
