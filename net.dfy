/** The parts of net/http and net/url that the modelled code relies on. */
module Net {

  type byte = b: int | 0 <= b < 256
  type int64 = x: int | -0x8000_0000_0000_0000 <= x < 0x8000_0000_0000_0000
  type uint64 = x: int | 0 <= x < 0x1_0000_0000_0000_0000

  /** Go's two's-complement wrap into int64, as conversions to int64 and int64 arithmetic do it. */
  function WrapInt64(x: int): (r: int64)
    ensures -0x8000_0000_0000_0000 <= x < 0x8000_0000_0000_0000 ==> r == x
  {
    (x + 0x8000_0000_0000_0000) % 0x1_0000_0000_0000_0000 - 0x8000_0000_0000_0000
  }

  /** The fields of a url.URL that this program ever sets. */
  datatype Url = Url(scheme: string, host: string, path: string)

  /** url.URL.String() of an absolute URL whose path is empty or begins with '/'. */
  function UrlString(u: Url): string {
    u.scheme + "://" + u.host + u.path
  }

  /** http.Header: each key maps to its list of values. */
  type Header = map<string, seq<string>>

  /** Header.Get: the first value of the key, or "" when it has none. */
  function HeaderGet(h: Header, key: string): (v: string)
    ensures v != "" ==> key in h && |h[key]| > 0 && v == h[key][0]
  {
    if key in h && |h[key]| > 0 then h[key][0] else ""
  }

  /** Header.Set: the key's values are replaced by the one value. */
  function HeaderSet(h: Header, key: string, value: string): (r: Header)
    ensures r.Keys == h.Keys + {key}
    ensures HeaderGet(r, key) == value
    ensures forall k :: k in h && k != key ==> k in r && r[k] == h[k]
  {
    h[key := [value]]
  }

  /** Header.Add: the value is appended to the key's values. */
  function HeaderAdd(h: Header, key: string, value: string): (r: Header)
    ensures r.Keys == h.Keys + {key}
    ensures key in h && |h[key]| > 0 ==> HeaderGet(r, key) == HeaderGet(h, key)
    ensures key !in h ==> r[key] == [value]
    ensures forall k :: k in h && k != key ==> k in r && r[k] == h[k]
  {
    h[key := (if key in h then h[key] else []) + [value]]
  }
}
