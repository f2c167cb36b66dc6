/** The geolocation tool (src/ai/flows/tools/geolocation.ts): a stand-in geocoder that knows one
    place. Coordinates are fixed-point, in ten-thousandths of a degree. */
module Geolocation {
  import opened Text

  datatype Coordinates = Coordinates(lat: int, lng: int)

  /** Latitude 37.422, longitude -122.084. */
  const MountainView := Coordinates(374220, -1220840)
  /** Latitude 40.7128, longitude -74.0060 (New York City), for every other address. */
  const NewYork := Coordinates(407128, -740060)

  const Needle := "mountain view"

  predicate MentionsMountainView(address: string)
  {
    Contains(Lower(address), Needle)
  }

  /** The tool's handler: Mountain View when the lower-cased address contains "mountain view",
      New York otherwise; there is no third answer and no failure. */
  function Geocode(address: string): (r: Coordinates)
    ensures r == MountainView <==> MentionsMountainView(address)
    ensures r == NewYork <==> !MentionsMountainView(address)
  {
    if MentionsMountainView(address) then MountainView else NewYork
  }

  /** The match ignores letter case: upper-casing an address does not change its coordinates. */
  lemma GeocodeIgnoresCase(address: string)
    ensures Geocode(Upper(address)) == Geocode(address)
  {
    LowerOfUpper(address);
  }

  /** Any address with "Mountain View", in whatever letter case, anywhere in it is placed there. */
  lemma GeocodeFindsMountainView(before: string, name: string, after: string)
    requires Lower(name) == Needle
    ensures Geocode(before + name + after) == MountainView
  {
    LowerConcat(before + name, after);
    LowerConcat(before, name);
    ContainsMiddle(Lower(before), Needle, Lower(after));
  }

  /** An address too short to hold the phrase is placed in New York. */
  lemma ShortAddressIsNewYork(address: string)
    requires |address| < |Needle|
    ensures Geocode(address) == NewYork
  {
  }
}
