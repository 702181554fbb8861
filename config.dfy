/**
 * frontend/js/config.js: the CONFIG constants the other frontend modules use and the
 * Utils validators (isValidEmail, isValidPhone) and URL builder (getApiUrl).
 */
module Config {
  import opened Text

  const API_BASE_URL: string := "http://localhost:3000/api"

  /** CONFIG.STORAGE_KEYS */
  const USER_TOKEN: string := "canteen_user_token"
  const USER_DATA: string := "canteen_user_data"
  const CART_DATA: string := "canteen_cart_data"

  /** CONFIG.ORDER_STATUS */
  const PENDING: string := "PENDING"
  const CONFIRMED: string := "CONFIRMED"
  const PREPARING: string := "PREPARING"
  const READY: string := "READY"
  const COMPLETED: string := "COMPLETED"
  const CANCELLED: string := "CANCELLED"

  /** CONFIG.USER_ROLES */
  const ROLE_USER: string := "USER"
  const ROLE_ADMIN: string := "ADMIN"

  /** Utils.getApiUrl: the base URL followed by the endpoint. */
  function GetApiUrl(endpoint: string): (url: string)
    ensures API_BASE_URL <= url
    ensures url[|API_BASE_URL|..] == endpoint
  {
    API_BASE_URL + endpoint
  }

  /** The regex class `[^\s@]`. */
  predicate EmailChar(c: char)
  {
    !IsJsWhitespace(c) && c != '@'
  }

  /** The regex piece `[^\s@]+`. */
  predicate EmailRun(t: string)
  {
    |t| > 0 && forall k :: 0 <= k < |t| ==> EmailChar(t[k])
  }

  /**
   * Utils.isValidEmail, the test of /^[^\s@]+@[^\s@]+\.[^\s@]+$/: the whole string is a
   * run, an '@', a run, a '.', and a run. The '.' may be any of the dots after the '@'
   * (the regex backtracks over them).
   */
  predicate IsValidEmail(email: string)
  {
    exists at, dot | 0 <= at < dot < |email| ::
      && email[at] == '@' && email[dot] == '.'
      && EmailRun(email[..at]) && EmailRun(email[at + 1..dot]) && EmailRun(email[dot + 1..])
  }

  /** Utils.isValidPhone, the test of /^[0-9]{10}$/. */
  predicate IsValidPhone(phone: string)
  {
    |phone| == 10 && AllDigits(phone)
  }

  /** The phone rule in other words: ten characters, none of which stripping non-digits removes. */
  lemma ValidPhoneIff(phone: string)
    ensures IsValidPhone(phone) <==> |phone| == 10 && DigitsOnly(phone) == phone
  {
    if AllDigits(phone) {
      DigitsOnlyOfDigits(phone);
    }
  }

  predicate NoWhitespace(s: string)
  {
    forall k :: 0 <= k < |s| ==> !IsJsWhitespace(s[k])
  }

  /**
   * The email rule in plain terms: no whitespace, exactly one '@', something before it,
   * and after it a '.' that is neither the first nor the last character of the domain.
   */
  predicate EmailShape(email: string)
  {
    && NoWhitespace(email)
    && multiset(email)['@'] == 1
    && exists at, dot | 0 < at && at + 1 < dot < |email| - 1 :: email[at] == '@' && email[dot] == '.'
  }

  lemma IsValidEmailIff(email: string)
    ensures IsValidEmail(email) <==> EmailShape(email)
  {
    if IsValidEmail(email) {
      ValidEmailHasShape(email);
    }
    if EmailShape(email) {
      ShapeIsValidEmail(email);
    }
  }

  lemma ValidEmailHasShape(email: string)
    requires IsValidEmail(email)
    ensures EmailShape(email)
  {
    var at, dot :| 0 <= at < dot < |email|
      && email[at] == '@' && email[dot] == '.'
      && EmailRun(email[..at]) && EmailRun(email[at + 1..dot]) && EmailRun(email[dot + 1..]);
    RunsHaveNoWhitespace(email, at, dot);
    RunsHaveOneAt(email, at, dot);
    assert 0 < at && at + 1 < dot < |email| - 1;
  }

  /** The three runs, the '@' and the '.' cover the whole string, and none is whitespace. */
  lemma RunsHaveNoWhitespace(email: string, at: nat, dot: nat)
    requires at < dot < |email| && email[at] == '@' && email[dot] == '.'
    requires EmailRun(email[..at]) && EmailRun(email[at + 1..dot]) && EmailRun(email[dot + 1..])
    ensures NoWhitespace(email)
  {
    var local, domain, tld := email[..at], email[at + 1..dot], email[dot + 1..];
    forall k | 0 <= k < |email| ensures !IsJsWhitespace(email[k]) {
      if k < at {
        assert email[k] == local[k];
      } else if at < k < dot {
        assert email[k] == domain[k - at - 1];
      } else if dot < k {
        assert email[k] == tld[k - dot - 1];
      }
    }
  }

  /** The runs hold no '@', so the one between them is the only one. */
  lemma RunsHaveOneAt(email: string, at: nat, dot: nat)
    requires at < dot < |email| && email[at] == '@' && email[dot] == '.'
    requires EmailRun(email[..at]) && EmailRun(email[at + 1..dot]) && EmailRun(email[dot + 1..])
    ensures multiset(email)['@'] == 1
  {
    var local, domain, tld := email[..at], email[at + 1..dot], email[dot + 1..];
    AtSplit(email, at);
    assert '@' !in local by {
      forall k | 0 <= k < |local| ensures local[k] != '@' { }
    }
    var rest := email[at + 1..];
    assert '@' !in rest by {
      forall k | 0 <= k < |rest| ensures rest[k] != '@' {
        if at + 1 + k < dot {
          assert rest[k] == domain[k];
        } else if at + 1 + k > dot {
          assert rest[k] == tld[at + k - dot];
        }
      }
    }
  }

  lemma ShapeIsValidEmail(email: string)
    requires EmailShape(email)
    ensures IsValidEmail(email)
  {
    var at, dot :| 0 < at && at + 1 < dot < |email| - 1 && email[at] == '@' && email[dot] == '.';
    AtSplit(email, at);
    var local, rest := email[..at], email[at + 1..];
    assert multiset(local)['@'] == 0 && multiset(rest)['@'] == 0;
    assert '@' !in local && '@' !in rest;
    assert EmailRun(local) by {
      forall k | 0 <= k < |local| ensures EmailChar(local[k]) {
        assert local[k] == email[k];
      }
    }
    var domain, tld := email[at + 1..dot], email[dot + 1..];
    assert EmailRun(domain) by {
      forall k | 0 <= k < |domain| ensures EmailChar(domain[k]) {
        assert domain[k] == email[at + 1 + k] == rest[k];
      }
    }
    assert EmailRun(tld) by {
      forall k | 0 <= k < |tld| ensures EmailChar(tld[k]) {
        assert tld[k] == email[dot + 1 + k] == rest[dot - at + k];
      }
    }
  }

  /** How the '@' count of a string splits around one position holding '@'. */
  lemma AtSplit(email: string, at: nat)
    requires at < |email| && email[at] == '@'
    ensures multiset(email)['@'] == multiset(email[..at])['@'] + 1 + multiset(email[at + 1..])['@']
  {
    assert email == email[..at] + [email[at]] + email[at + 1..];
    assert multiset(email) == multiset(email[..at]) + multiset([email[at]]) + multiset(email[at + 1..]);
  }

  /** A string with no '@', or with two or more, is never a valid email. */
  lemma EmailNeedsExactlyOneAt(email: string)
    requires multiset(email)['@'] != 1
    ensures !IsValidEmail(email)
  {
    IsValidEmailIff(email);
  }
}
