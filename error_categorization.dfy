/**
 * The error classifier behind the failure e-mails and the report history:
 * an ordered list of keyword tests on the lower-cased error message, each
 * leading to a category and its troubleshooting tips, and a shorter list
 * that turns a message into a sentence for the merchant.
 */
module ErrorCategorization {
  import opened Wrappers
  import opened Text

  /** The outcomes of `categorizeError`, one per `return` in the source, in priority order. */
  datatype Category =
    | RateLimit | ApiAuthentication | ApiNotFound | ApiError
    | DataProcessing | FileGeneration | InvalidEmail | EmailDelivery
    | Configuration | NetworkTimeout | Database | Unknown
  {
    /** The four categories reached through the Shopify API branch. */
    predicate IsShopify()
    {
      this == RateLimit || this == ApiAuthentication || this == ApiNotFound || this == ApiError
    }
  }

  datatype ErrorAnalysis = ErrorAnalysis(category: string, troubleshootingTips: seq<string>)

  function CategoryName(c: Category): (name: string)
    ensures |name| >= 11
  {
    match c
    case RateLimit => "Shopify API Rate Limit"
    case ApiAuthentication => "Shopify Authentication Error"
    case ApiNotFound => "Shopify Data Not Found"
    case ApiError => "Shopify API Error"
    case DataProcessing => "Data Processing Error"
    case FileGeneration => "File Generation Error"
    case InvalidEmail => "Invalid Email Address"
    case EmailDelivery => "Email Delivery Error"
    case Configuration => "Configuration Error"
    case NetworkTimeout => "Network/Timeout Error"
    case Database => "Database Error"
    case Unknown => "Unknown Error"
  }

  /** The category names are pairwise different, so the name tells which branch was taken. */
  lemma CategoryNameInjective(a: Category, b: Category)
    requires CategoryName(a) == CategoryName(b)
    ensures a == b
  {
  }

  /** How many tips each category lists. */
  function TipCount(c: Category): (n: nat)
    ensures 4 <= n <= 5
  {
    match c
    case RateLimit => 4
    case ApiAuthentication => 4
    case ApiNotFound => 4
    case ApiError => 4
    case DataProcessing => 5
    case FileGeneration => 4
    case InvalidEmail => 4
    case EmailDelivery => 5
    case Configuration => 5
    case NetworkTimeout => 5
    case Database => 4
    case Unknown => 5
  }

  /** The `k`-th troubleshooting tip of category `c`. */
  function Tip(c: Category, k: nat): string
    requires k < TipCount(c)
  {
    match c
    case RateLimit =>
      if k == 0 then "Shopify has temporarily rate-limited your requests"
      else if k == 1 then "The report will automatically retry on the next scheduled run"
      else if k == 2 then "Consider reducing the frequency of your reports if this happens often"
      else "Large date ranges may trigger rate limits - try using smaller date ranges"
    case ApiAuthentication =>
      if k == 0 then "Your Shopify app connection may have expired"
      else if k == 1 then "Try reinstalling the app from your Shopify admin"
      else if k == 2 then "Ensure the app has the required permissions (read_orders, read_products, etc.)"
      else "Contact support if the issue persists"
    case ApiNotFound =>
      if k == 0 then "The requested data may not exist in your Shopify store"
      else if k == 1 then "Check your filter settings to ensure they match available data"
      else if k == 2 then "Verify your date range includes periods with data"
      else "Some data types may not be available for your Shopify plan"
    case ApiError =>
      if k == 0 then "There was an issue communicating with Shopify's API"
      else if k == 1 then "This is usually temporary - the report will retry automatically"
      else if k == 2 then "Check Shopify's status page if the issue persists: status.shopify.com"
      else "Verify your Shopify store is active and accessible"
    case DataProcessing =>
      if k == 0 then "There was an issue processing the data from Shopify"
      else if k == 1 then "This may be due to unexpected data formats or missing fields"
      else if k == 2 then "Try running the report with a smaller date range"
      else if k == 3 then "Preview the report to see if specific filters cause issues"
      else "Contact support with the execution ID if this continues"
    case FileGeneration =>
      if k == 0 then "There was an issue creating the report file"
      else if k == 1 then "This may be due to temporary server issues"
      else if k == 2 then "The report will automatically retry on the next scheduled run"
      else "If this persists, contact support - there may be a storage issue"
    case InvalidEmail =>
      if k == 0 then "One or more recipient email addresses are invalid"
      else if k == 1 then "Check your recipient list and remove any invalid addresses"
      else if k == 2 then "Ensure all email addresses are properly formatted"
      else "Update the report configuration with valid email addresses"
    case EmailDelivery =>
      if k == 0 then "There was an issue sending the report email"
      else if k == 1 then "This may be due to temporary email server issues"
      else if k == 2 then "Verify all recipient email addresses are correct"
      else if k == 3 then "Check your email service configuration"
      else "The report was generated successfully but couldn't be delivered"
    case Configuration =>
      if k == 0 then "There's an issue with your report configuration"
      else if k == 1 then "Review your report settings and filters"
      else if k == 2 then "Ensure all required fields are filled in"
      else if k == 3 then "Try creating a new report with similar settings"
      else "Contact support if you need help with configuration"
    case NetworkTimeout =>
      if k == 0 then "The request timed out or couldn't connect to the server"
      else if k == 1 then "This is usually temporary due to network issues"
      else if k == 2 then "The report will automatically retry on the next scheduled run"
      else if k == 3 then "Try reducing your date range if you're querying large amounts of data"
      else "Check your internet connection if running manually"
    case Database =>
      if k == 0 then "There was an issue accessing the database"
      else if k == 1 then "This is usually temporary and will resolve automatically"
      else if k == 2 then "The report will retry on the next scheduled run"
      else "Contact support if this error persists"
    case Unknown =>
      if k == 0 then "An unexpected error occurred during report execution"
      else if k == 1 then "The report will automatically retry on the next scheduled run"
      else if k == 2 then "Try running the report manually to see if the issue persists"
      else if k == 3 then "Preview the report to verify your configuration"
      else "Contact support with the execution ID for assistance"
  }

  /** The tips of category `c`, in the order the source lists them. */
  function TroubleshootingTips(c: Category): (tips: seq<string>)
    ensures |tips| == TipCount(c)
    ensures forall k :: 0 <= k < |tips| ==> tips[k] == Tip(c, k)
  {
    seq(TipCount(c), k requires 0 <= k < TipCount(c) => Tip(c, k))
  }

  // The keyword tests of `categorizeError`, on the lower-cased message.

  predicate ApiWords(s: string)
  {
    Contains(s, "shopify") || Contains(s, "graphql") || Contains(s, "api") || Contains(s, "throttled")
    || Contains(s, "rate limit")
  }

  predicate RateLimitWords(s: string)
  {
    Contains(s, "throttled") || Contains(s, "rate limit")
  }

  predicate AuthWords(s: string)
  {
    Contains(s, "authentication") || Contains(s, "unauthorized")
  }

  predicate NotFoundWords(s: string)
  {
    Contains(s, "not found") || Contains(s, "404")
  }

  predicate ProcessingWords(s: string)
  {
    Contains(s, "process") || Contains(s, "transform") || Contains(s, "format") || Contains(s, "invalid data")
  }

  predicate FileWords(s: string)
  {
    Contains(s, "file") || Contains(s, "csv") || Contains(s, "write") || Contains(s, "disk") || Contains(s, "storage")
  }

  predicate EmailWords(s: string)
  {
    Contains(s, "email") || Contains(s, "smtp") || Contains(s, "mail") || Contains(s, "recipient")
  }

  predicate InvalidEmailWords(s: string)
  {
    Contains(s, "invalid") && Contains(s, "email")
  }

  predicate ConfigWords(s: string)
  {
    Contains(s, "config") || Contains(s, "setting") || Contains(s, "invalid") || Contains(s, "missing")
  }

  predicate NetworkWords(s: string)
  {
    Contains(s, "timeout") || Contains(s, "network") || Contains(s, "connection") || Contains(s, "econnrefused")
    || Contains(s, "enotfound")
  }

  predicate DatabaseWords(s: string)
  {
    Contains(s, "database") || Contains(s, "prisma") || Contains(s, "query") || Contains(s, "sql")
  }

  /** The decision list of `categorizeError` on an already lower-cased message. */
  function Classify(s: string): Category
  {
    if ApiWords(s) then
      if RateLimitWords(s) then RateLimit
      else if AuthWords(s) then ApiAuthentication
      else if NotFoundWords(s) then ApiNotFound
      else ApiError
    else if ProcessingWords(s) then DataProcessing
    else if FileWords(s) then FileGeneration
    else if EmailWords(s) then
      if InvalidEmailWords(s) then InvalidEmail else EmailDelivery
    else if ConfigWords(s) then Configuration
    else if NetworkWords(s) then NetworkTimeout
    else if DatabaseWords(s) then Database
    else Unknown
  }

  /**
   * The branches are tried in priority order: the Shopify categories are
   * exactly the messages with an API word, and a rate-limit word wins inside them.
   */
  lemma ApiBranch(s: string)
    ensures Classify(s).IsShopify() <==> ApiWords(s)
    ensures RateLimitWords(s) ==> Classify(s) == RateLimit
    ensures Classify(s) == ApiError <==> ApiWords(s) && !RateLimitWords(s) && !AuthWords(s) && !NotFoundWords(s)
  {
  }

  /** An invalid address is recognised only past the API, processing and file branches, and needs both words. */
  lemma InvalidEmailBranch(s: string)
    ensures Classify(s) == InvalidEmail <==>
      !ApiWords(s) && !ProcessingWords(s) && !FileWords(s) && EmailWords(s) && InvalidEmailWords(s)
  {
  }

  /** A configuration error is one that no earlier branch claims and that has a configuration word. */
  lemma ConfigurationBranch(s: string)
    ensures Classify(s) == Configuration <==>
      !ApiWords(s) && !ProcessingWords(s) && !FileWords(s) && !EmailWords(s) && ConfigWords(s)
  {
  }

  /** Unknown is left exactly for messages without any keyword. */
  lemma UnknownBranch(s: string)
    ensures Classify(s) == Unknown <==>
      !ApiWords(s) && !ProcessingWords(s) && !FileWords(s) && !EmailWords(s) && !ConfigWords(s)
      && !NetworkWords(s) && !DatabaseWords(s)
  {
  }

  /** `categorizeError`; the details argument is lower-cased by the source but never consulted. */
  function CategorizeError(errorMessage: string, errorDetails: Option<string>): (r: ErrorAnalysis)
    ensures r.category != "" && 4 <= |r.troubleshootingTips| <= 5
    ensures r.category == CategoryName(Classify(ToLower(errorMessage)))
  {
    var c := Classify(ToLower(errorMessage));
    ErrorAnalysis(CategoryName(c), TroubleshootingTips(c))
  }

  /** Matching ignores letter case. */
  lemma CategorizeIgnoresCase(errorMessage: string, errorDetails: Option<string>)
    ensures CategorizeError(ToLower(errorMessage), errorDetails) == CategorizeError(errorMessage, errorDetails)
  {
    ToLowerIdempotent(errorMessage);
  }

  /** The details never change the analysis. */
  lemma CategorizeIgnoresDetails(errorMessage: string, d1: Option<string>, d2: Option<string>)
    ensures CategorizeError(errorMessage, d1) == CategorizeError(errorMessage, d2)
  {
  }

  /** Any message naming the API side is filed under Shopify, whatever else it mentions. */
  lemma ApiTakesPriority(errorMessage: string)
    requires ApiWords(ToLower(errorMessage))
    ensures StartsWith(CategorizeError(errorMessage, None).category, "Shopify ")
  {
    var c := Classify(ToLower(errorMessage));
    match c
    case RateLimit =>
    case ApiAuthentication =>
    case ApiNotFound =>
    case ApiError =>
  }

  /** "invalid" alone, without any mail word, is a configuration problem. */
  lemma InvalidWithoutMailIsConfiguration(s: string)
    requires !ApiWords(s) && !ProcessingWords(s) && !FileWords(s) && !EmailWords(s) && Contains(s, "invalid")
    ensures Classify(s) == Configuration
  {
  }

  /** A network problem reported while calling the API is classified by the API branch. */
  lemma NetworkErrorCallingApi()
    ensures CategorizeError("network error calling api", None).category == "Shopify API Error"
  {
    var s := "network error calling api";
    ToLowerOfLower(s);
    NetworkErrorCallingApiWords();
    ApiBranch(s);
    assert Classify(ToLower(s)) == ApiError;
  }

  /** The words of that message: "api", and no word of a narrower Shopify category. */
  lemma NetworkErrorCallingApiWords()
    ensures var s := "network error calling api";
      ApiWords(s) && !RateLimitWords(s) && !AuthWords(s) && !NotFoundWords(s)
  {
    var s := "network error calling api";
    assert OccursAt(s, "api", 22);
    MissingCharNotContained(s, "throttled", 1);
    MissingCharNotContained(s, "rate limit", 7);
    MissingCharNotContained(s, "authentication", 3);
    MissingCharNotContained(s, "unauthorized", 5);
    MissingCharNotContained(s, "not found", 4);
    MissingCharNotContained(s, "404", 0);
  }

  // The keyword tests of `getUserFriendlyErrorMessage`, on the lower-cased message.

  predicate FriendlyKeyword(s: string)
  {
    RateLimitWords(s) || AuthWords(s) || NotFoundWords(s) || Contains(s, "process") || Contains(s, "transform")
    || Contains(s, "file") || Contains(s, "csv") || Contains(s, "email") || Contains(s, "smtp")
    || Contains(s, "timeout") || Contains(s, "network")
  }

  const FriendlyMessages: seq<string> := [
    "Shopify API rate limit exceeded. The report will retry automatically.",
    "Shopify authentication failed. Please reconnect your store.",
    "Requested data not found in Shopify. Check your filters and date range.",
    "Failed to process data from Shopify. Try a smaller date range.",
    "Failed to generate report file. This is usually temporary.",
    "Failed to send report email. Check recipient addresses.",
    "Request timed out. Try reducing your date range."]

  /** `getUserFriendlyErrorMessage`. */
  function GetUserFriendlyErrorMessage(errorMessage: string): (r: string)
    ensures !FriendlyKeyword(ToLower(errorMessage)) ==> r == errorMessage
    ensures FriendlyKeyword(ToLower(errorMessage)) ==> r in FriendlyMessages
    ensures RateLimitWords(ToLower(errorMessage)) ==> r == FriendlyMessages[0]
  {
    var s := ToLower(errorMessage);
    if RateLimitWords(s) then FriendlyMessages[0]
    else if AuthWords(s) then FriendlyMessages[1]
    else if NotFoundWords(s) then FriendlyMessages[2]
    else if Contains(s, "process") || Contains(s, "transform") then FriendlyMessages[3]
    else if Contains(s, "file") || Contains(s, "csv") then FriendlyMessages[4]
    else if Contains(s, "email") || Contains(s, "smtp") then FriendlyMessages[5]
    else if Contains(s, "timeout") || Contains(s, "network") then FriendlyMessages[6]
    else errorMessage
  }

  /** A rate-limit message gets the rate-limit category and the rate-limit sentence alike. */
  lemma RateLimitAgrees(errorMessage: string)
    requires RateLimitWords(ToLower(errorMessage))
    ensures CategorizeError(errorMessage, None).category == "Shopify API Rate Limit"
    ensures GetUserFriendlyErrorMessage(errorMessage) == "Shopify API rate limit exceeded. The report will retry automatically."
  {
  }
}
