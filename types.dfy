/** Records shared by the whole client (types.ts), plus the small wrappers the model
    uses for JavaScript's optional values and thrown exceptions. */
module Types {

  /** An optional value: `undefined`/`null` in the source is `None`. */
  datatype Option<+T> = None | Some(value: T)

  /** The exceptions the browser builtins of this model can throw. */
  datatype JsError = InvalidCharacterError | RangeError | NotSupportedError

  /** A call that either returns a value or throws. */
  datatype Result<+T> = Ok(value: T) | Err(error: JsError)

  /** An element of a `Uint8Array`. */
  newtype byte = x: int | 0 <= x < 256

  /** One food analysis (NutritionData, types.ts:2-18). JavaScript numbers are modelled as
      integers; `timestamp` is milliseconds since the epoch. */
  datatype NutritionData = NutritionData(
    calories: int,
    protein: int,
    carbs: int,
    fat: int,
    health_benefits: seq<string>,
    harmful_warnings: seq<string>,
    nova_score: int,
    is_ultra_processed: bool,
    motivation: string,
    scanned_image: Option<string>,
    verdict: string,
    health_score: int,
    key_nutrients: seq<string>,
    better_alternatives: Option<seq<string>>,
    timestamp: Option<int>)

  datatype Goals = Goals(
    calories: int,
    protein: int,
    carbs: int,
    fat: int,
    water_ml: int,
    primary_objective: string)

  datatype Stats = Stats(weight: int, height: int, age: int)

  /** The user's profile (UserProfile, types.ts:20-43). */
  datatype UserProfile = UserProfile(
    id: string,
    name: string,
    onboarded: bool,
    scan_count: int,
    daily_scan_count: int,
    last_scan_date: string,
    is_pro: bool,
    dietary_preference: string,
    activity_level: string,
    goals: Goals,
    stats: Stats)

  /** The nutrition snapshot copied into a shared post. */
  datatype NutritionSummary = NutritionSummary(calories: int, protein: int, carbs: int, fat: int, verdict: string)

  /** A post's display time: the literal "Just now" of an optimistic post, or the creation
      time of a fetched row (its locale formatting is not modelled). */
  datatype PostTime = JustNow | CreatedAt(ms: int)

  /** A community post (Post, types.ts:45-61). */
  datatype Post = Post(
    id: string,
    user_id: string,
    user_name: string,
    user_avatar: string,
    image_url: string,
    caption: string,
    likes: int,
    timestamp: PostTime,
    nutrition_summary: Option<NutritionSummary>)

  /** The summary a share copies out of a scan result. */
  function SummaryOf(d: NutritionData): (s: NutritionSummary)
  {
    NutritionSummary(d.calories, d.protein, d.carbs, d.fat, d.verdict)
  }

  /** JavaScript's `s || d` on an optional string: the default replaces a missing or empty value. */
  function StringOr(o: Option<string>, d: string): string
  {
    if o.Some? && o.value != "" then o.value else d
  }

  /** JavaScript's `n || d` on an optional number: the default replaces a missing value or 0. */
  function IntOr(o: Option<int>, d: int): int
  {
    if o.Some? && o.value != 0 then o.value else d
  }

  /** JavaScript's `b || d` on an optional boolean. */
  function BoolOr(o: Option<bool>, d: bool): bool
  {
    if o.Some? && o.value then true else d
  }

  /** The decimal digits of a natural number, as `String(n)` writes them. */
  function DecimalString(n: nat): (s: string)
    ensures |s| >= 1
    ensures forall i :: 0 <= i < |s| ==> '0' <= s[i] <= '9'
  {
    if n < 10 then [('0' as int + n) as char]
    else DecimalString(n / 10) + [('0' as int + n % 10) as char]
  }

  /** Different numbers are written with different digits: the last digit fixes `n % 10`
      and the digits before it fix `n / 10`. */
  lemma {:induction false} DecimalStringInjective(a: nat, b: nat)
    requires DecimalString(a) == DecimalString(b)
    ensures a == b
  {
    var s := DecimalString(a);
    if a < 10 || b < 10 {
      assert a < 10 && b < 10;
      assert s[0] == ('0' as int + a) as char == ('0' as int + b) as char;
    } else {
      assert s[|s| - 1] == ('0' as int + a % 10) as char == ('0' as int + b % 10) as char;
      assert s[..|s| - 1] == DecimalString(a / 10) == DecimalString(b / 10);
      DecimalStringInjective(a / 10, b / 10);
    }
  }

  /** `a` is `b` with some elements left out, the rest in their order. */
  predicate IsSubsequence<T(==)>(a: seq<T>, b: seq<T>)
    decreases |b|
  {
    if a == [] then true
    else if b == [] then false
    else if a[0] == b[0] then IsSubsequence(a[1..], b[1..])
    else IsSubsequence(a, b[1..])
  }

  /** A subsequence stays one when both sides grow by the same last element, and when only
      the larger side does. */
  lemma {:induction false} SubsequenceAppend<T>(a: seq<T>, b: seq<T>, x: T)
    requires IsSubsequence(a, b)
    ensures IsSubsequence(a + [x], b + [x]) && IsSubsequence(a, b + [x])
    decreases |b|
  {
    if a == [] {
      if b != [] && b[0] != x {
        SubsequenceAppend(a, b[1..], x);
        assert (b + [x])[1..] == b[1..] + [x];
      }
    } else {
      assert b != [];
      assert (a + [x])[1..] == a[1..] + [x];
      assert (b + [x])[1..] == b[1..] + [x];
      if a[0] == b[0] {
        SubsequenceAppend(a[1..], b[1..], x);
      } else {
        SubsequenceAppend(a, b[1..], x);
      }
    }
  }
}
