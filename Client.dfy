/**
 * The shared HTTP client (Client.java): one process-wide slot, filled by the
 * first `getInstance` call and returned unchanged by every later one, whatever
 * host that call names.
 */
module Clients {
  import opened Base

  const SCHEME := "https://"
  const SLASH := "/"

  /** A configured HTTP client; only its base URL is modelled. */
  class Retrofit {
    const baseUrl: string

    constructor (baseUrl: string)
      ensures this.baseUrl == baseUrl
    {
      this.baseUrl := baseUrl;
    }
  }

  /** The base URL of a host: the https scheme, the host, and a slash. */
  function BaseUrl(host: string): (r: string)
    ensures |r| == |host| + 9
    ensures r[..8] == "https://" && r[8..|r| - 1] == host && r[|r| - 1] == '/'
  {
    SCHEME + host + SLASH
  }

  /** Different hosts give different base URLs. */
  lemma BaseUrlInjective(h1: string, h2: string)
    ensures BaseUrl(h1) == BaseUrl(h2) ==> h1 == h2
  {
  }

  /** The static `retrofit` field of the source, as one mutable slot. */
  class Client {
    var instance: Option<Retrofit>

    constructor ()
      ensures instance == None
    {
      instance := None;
    }

    /** The first call creates and stores a client for `host`; every later call
        returns that same client and the slot never changes again. */
    method GetInstance(host: string) returns (r: Retrofit)
      modifies this
      ensures old(instance).Some? ==> r == old(instance).value && instance == old(instance)
      ensures old(instance).None? ==> fresh(r) && r.baseUrl == BaseUrl(host) && instance == Some(r)
    {
      var url := BaseUrl(host);
      if instance.None? {
        var c := new Retrofit(url);
        instance := Some(c);
      }
      r := instance.value;
    }
  }
}
