/** Browser-family detection from the user-agent string. */
module Browser {
  import opened Strings

  /** `Unknown` is the state before detection has run. */
  datatype Family = Unknown | Firefox | Chrome | Edge | Other

  /** The value the page keeps in its `browserType` state. */
  function Name(f: Family): string
  {
    match f
    case Unknown => ""
    case Firefox => "firefox"
    case Chrome => "chrome"
    case Edge => "edge"
    case Other => "other"
  }

  /** The label rendered as the current browser: `browserType || 'Unknown'`. */
  function Shown(f: Family): (r: string)
    ensures r != ""
    ensures f == Unknown <==> r == "Unknown"
    ensures f != Unknown ==> r == Name(f)
  {
    if Name(f) == "" then "Unknown" else Name(f)
  }

  /** The ordered test on the lower-cased user agent: "firefox" first, then
      "chrome", then "edge", otherwise other. */
  function Classify(userAgent: string): (r: Family)
    ensures r != Unknown
    ensures r == Firefox <==> Occurs(LowerAscii(userAgent), "firefox")
    ensures r == Chrome <==>
      !Occurs(LowerAscii(userAgent), "firefox") && Occurs(LowerAscii(userAgent), "chrome")
    ensures r == Edge <==>
      !Occurs(LowerAscii(userAgent), "firefox") && !Occurs(LowerAscii(userAgent), "chrome")
      && Occurs(LowerAscii(userAgent), "edge")
    ensures r == Other <==>
      !Occurs(LowerAscii(userAgent), "firefox") && !Occurs(LowerAscii(userAgent), "chrome")
      && !Occurs(LowerAscii(userAgent), "edge")
  {
    var ua := LowerAscii(userAgent);
    if Includes(ua, "firefox") then Firefox
    else if Includes(ua, "chrome") then Chrome
    else if Includes(ua, "edge") then Edge
    else Other
  }
}
