/**
 * The site's configuration read from the environment at build time: feature
 * flags, the circuit background's options, the default theme and the
 * service addresses, each with its default.
 */
module Env {
  import opened Js

  /** `process.env` as the build saw it: a variable that was not set has no entry. */
  type Environment = map<string, string>

  /** A variable that is set to something other than the empty string. */
  predicate Given(env: Environment, key: string) {
    key in env && env[key] != []
  }

  /**
   * `getEnvVar(key, defaultValue)`: `process.env[key] || defaultValue`. The
   * empty string is falsy, so a variable set to it gives the default as well.
   */
  function GetEnvVar(env: Environment, key: string, default: Option<string>): (r: Option<string>)
    ensures Given(env, key) ==> r == Some(env[key])
    ensures !Given(env, key) ==> r == default
    ensures r == Some([]) ==> default == Some([])
  {
    if key in env && env[key] != "" then Some(env[key]) else default
  }

  /** `getEnvVar(key, text)` with a string default, which is never null. */
  function GetEnvText(env: Environment, key: string, default: string): (r: string)
    ensures Given(env, key) ==> r == env[key]
    ensures !Given(env, key) ==> r == default
    ensures default != [] ==> r != []
  {
    GetEnvVar(env, key, Some(default)).value
  }

  /**
   * `getBooleanEnvVar(key, defaultValue)`: the default when the variable is
   * unset or empty; otherwise true exactly for "true" and "1", so "TRUE",
   * "yes" and "0" are all false.
   */
  function GetBooleanEnvVar(env: Environment, key: string, default: bool): (b: bool)
    ensures !Given(env, key) ==> b == default
    ensures Given(env, key) ==> (b <==> env[key] == "true" || env[key] == "1")
  {
    var value := GetEnvVar(env, key, None);
    if value.None? then default else value.value == "true" || value.value == "1"
  }

  /**
   * `parseFloat(getEnvVar(key, text)) || fallback`: the number the variable
   * reads as, unless that is 0 or NaN, when the fallback replaces it.
   */
  function GetNumberEnvVar(env: Environment, key: string, text: string, fallback: real): (n: Num)
    ensures fallback != 0.0 ==> Truthy(n)
    ensures Given(env, key) && Truthy(ParseFloat(env[key])) ==> n == ParseFloat(env[key])
    ensures Given(env, key) && !Truthy(ParseFloat(env[key])) ==> n == Finite(fallback)
    ensures !Given(env, key) ==> n == Or(ParseFloat(text), Finite(fallback))
  {
    Or(ParseFloat(GetEnvText(env, key, text)), Finite(fallback))
  }

  const BlogKey := "REACT_APP_ENABLE_BLOG"
  const PortfolioKey := "REACT_APP_ENABLE_PORTFOLIO"
  const NewsletterKey := "REACT_APP_ENABLE_NEWSLETTER"
  const Use3DKey := "REACT_APP_CIRCUIT_BG_3D"
  const OpacityKey := "REACT_APP_CIRCUIT_BG_OPACITY"
  const SpeedKey := "REACT_APP_CIRCUIT_BG_SPEED"
  const DensityKey := "REACT_APP_CIRCUIT_BG_DENSITY"
  const FloatingKey := "REACT_APP_CIRCUIT_BG_FLOATING"
  const VerticalScrollKey := "REACT_APP_CIRCUIT_BG_VERTICAL_SCROLL"
  const DepthKey := "REACT_APP_CIRCUIT_BG_DEPTH"
  const ThemeKey := "REACT_APP_DEFAULT_THEME"
  const StripeKeyKey := "REACT_APP_STRIPE_PUBLISHABLE_KEY"
  const StripeModeKey := "REACT_APP_STRIPE_MODE"
  const PlausibleDomainKey := "REACT_APP_PLAUSIBLE_DOMAIN"
  const PlausibleScriptKey := "REACT_APP_PLAUSIBLE_SCRIPT_URL"
  const ApiBaseKey := "REACT_APP_API_BASE_URL"
  const MailchimpKey := "REACT_APP_MAILCHIMP_URL"

  datatype Features = Features(blog: bool, portfolio: bool, newsletter: bool)

  /** The options shared by the 2D and the 3D background, and the 3D depth. */
  datatype CircuitOptions = CircuitOptions(
    use3D: bool, opacity: Num, speed: Num, density: Num,
    floating: bool, verticalScroll: bool, depth: Num)

  datatype Config = Config(
    features: Features,
    circuitBackground: CircuitOptions,
    defaultTheme: string,
    stripeKey: string, stripeMode: string,
    plausibleDomain: string, plausibleScriptUrl: string,
    apiBaseUrl: string, mailchimpUrl: string)

  /** The `config` object: every entry read from its variable, with its default. */
  function LoadConfig(env: Environment): (c: Config)
    ensures Truthy(c.circuitBackground.opacity) && Truthy(c.circuitBackground.speed)
    ensures Truthy(c.circuitBackground.density) && Truthy(c.circuitBackground.depth)
    ensures c.defaultTheme != [] && c.stripeMode != [] && c.apiBaseUrl != []
    ensures c.features.blog == (!Given(env, BlogKey) || env[BlogKey] in {"true", "1"})
    ensures c.features.newsletter == (Given(env, NewsletterKey) && env[NewsletterKey] in {"true", "1"})
    ensures c.circuitBackground.use3D == (!Given(env, Use3DKey) || env[Use3DKey] in {"true", "1"})
  {
    Config(
      Features(
        GetBooleanEnvVar(env, BlogKey, true),
        GetBooleanEnvVar(env, PortfolioKey, true),
        GetBooleanEnvVar(env, NewsletterKey, false)),
      CircuitOptions(
        GetBooleanEnvVar(env, Use3DKey, true),
        GetNumberEnvVar(env, OpacityKey, "0.2", 0.2),
        GetNumberEnvVar(env, SpeedKey, "0.5", 0.5),
        GetNumberEnvVar(env, DensityKey, "1.2", 1.2),
        GetBooleanEnvVar(env, FloatingKey, true),
        GetBooleanEnvVar(env, VerticalScrollKey, true),
        GetNumberEnvVar(env, DepthKey, "1000", 1000.0)),
      GetEnvText(env, ThemeKey, "dark"),
      GetEnvText(env, StripeKeyKey, ""),
      GetEnvText(env, StripeModeKey, "test"),
      GetEnvText(env, PlausibleDomainKey, "aesstechnologies.com"),
      GetEnvText(env, PlausibleScriptKey, "https://plausible.io/js/script.js"),
      GetEnvText(env, ApiBaseKey, "https://aessserver.azurewebsites.net"),
      GetEnvText(env, MailchimpKey, ""))
  }

  /** The configuration of a build with no variable set. */
  const DefaultConfig := Config(
    Features(true, true, false),
    CircuitOptions(true, Finite(0.2), Finite(0.5), Finite(1.2), true, true, Finite(1000.0)),
    "dark", "", "test", "aesstechnologies.com", "https://plausible.io/js/script.js",
    "https://aessserver.azurewebsites.net", "")

  /** A one-digit integer part and a one-digit fraction: "i.f" parses to i + f / 10. */
  lemma ParseShortDecimal(i: char, f: char)
    requires IsDigit(i) && IsDigit(f)
    ensures ParseFloat([i, '.', f]) == Finite(DigitValue(i) as real + DigitValue(f) as real / 10.0)
  {
    ParseFloatDecimal([i], [f]);
    assert DecimalText([i], [f]) == [i, '.', f];
    assert DigitsValue([i]) == DigitValue(i) by { assert [i][..0] == []; }
    assert DigitsValue([f]) == DigitValue(f) by { assert [f][..0] == []; }
    assert Pow10(1) == 10;
  }

  /** The depth's default text parses to 1000. */
  lemma ParseThousand()
    ensures ParseFloat("1000") == Finite(1000.0)
  {
    ParseFloatDecimal("1000", "");
    ThousandDigits();
  }

  lemma ThousandDigits()
    ensures AllDigits("1000") && DecimalValue("1000", "") == 1000.0
  {
    assert "1000"[..3] == "100" && "100"[..2] == "10" && "10"[..1] == "1" && "1"[..0] == "";
  }

  /** With no variable set, every entry takes its default. */
  lemma UnsetGivesDefaults()
    ensures LoadConfig(map[]) == DefaultConfig
  {
    UnsetNumbers();
    UnsetDepth();
  }

  /** With no variable set, the opacity, speed and density take their defaults. */
  lemma UnsetNumbers()
    ensures var c := LoadConfig(map[]).circuitBackground;
      c.opacity == Finite(0.2) && c.speed == Finite(0.5) && c.density == Finite(1.2)
  {
    UnsetShortDecimal(OpacityKey, '0', '2');
    UnsetShortDecimal(SpeedKey, '0', '5');
    UnsetShortDecimal(DensityKey, '1', '2');
  }

  /** With no variable set, the depth is 1000. */
  lemma UnsetDepth()
    ensures LoadConfig(map[]).circuitBackground.depth == Finite(1000.0)
  {
    ParseThousand();
  }

  /** An unset numeric option whose default text is "i.f" reads as i + f / 10. */
  lemma UnsetShortDecimal(key: string, i: char, f: char)
    requires IsDigit(i) && IsDigit(f)
    ensures var x := DigitValue(i) as real + DigitValue(f) as real / 10.0;
      x != 0.0 ==> GetNumberEnvVar(map[], key, [i, '.', f], x) == Finite(x)
  {
    ParseShortDecimal(i, f);
  }

  /**
   * A numeric option set to "0" is not configurable: 0 is falsy, so the
   * fallback replaces it.
   */
  lemma ZeroFallsBack(env: Environment, key: string, text: string, fallback: real)
    requires key in env && env[key] == "0"
    ensures GetNumberEnvVar(env, key, text, fallback) == Finite(fallback)
  {
    ParseFloatDecimal("0", "");
    assert DecimalText("0", "") == "0";
  }

  /** A numeric option set to the text of a nonzero decimal number takes that number. */
  lemma DecimalConfigures(env: Environment, key: string, ip: string, fp: string, text: string, fallback: real)
    requires AllDigits(ip) && AllDigits(fp) && ip != []
    requires key in env && env[key] == DecimalText(ip, fp) && DecimalValue(ip, fp) != 0.0
    ensures GetNumberEnvVar(env, key, text, fallback) == Finite(DecimalValue(ip, fp))
  {
    ParseFloatDecimal(ip, fp);
  }
}
