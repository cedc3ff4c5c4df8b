/**
  get_location_coords: Azure region code -> (latitude, longitude). The source is an
  if/elif chain over fixed codes, ending in a default for every other string.
 */
module Geocoder {

  datatype Coordinates = Coordinates(lat: real, long: real)

  /** Returned for every string the chain does not list. */
  const Default: Coordinates := Coordinates(35.0, -40.0)

  /** The codes the chain tests. Japan East is listed by its display name, not by its
      region code `japaneast`. */
  ghost predicate Listed(location: string) {
       location == "westeurope"
    || location == "eastasia"
    || location == "southeastasia"
    || location == "centralus"
    || location == "eastus"
    || location == "eastus2"
    || location == "westus"
    || location == "northcentralus"
    || location == "southcentralus"
    || location == "northeurope"
    || location == "japanwest"
    || location == "Japan East"
    || location == "brazilsouth"
    || location == "australiaeast"
    || location == "australiasoutheast"
    || location == "southindia"
    || location == "centralindia"
    || location == "westindia"
    || location == "jioindiawest"
    || location == "jioindiacentral"
    || location == "canadacentral"
    || location == "canadaeast"
    || location == "uksouth"
    || location == "ukwest"
    || location == "westcentralus"
    || location == "westus2"
    || location == "koreacentral"
    || location == "koreasouth"
    || location == "francecentral"
    || location == "francesouth"
    || location == "australiacentral"
    || location == "australiacentral2"
    || location == "uaecentral"
    || location == "uaenorth"
    || location == "southafricanorth"
    || location == "southafricawest"
    || location == "switzerlandnorth"
    || location == "switzerlandwest"
    || location == "germanynorth"
    || location == "germanywestcentral"
    || location == "norwaywest"
    || location == "norwayeast"
    || location == "brazilsoutheast"
    || location == "westus3"
    || location == "swedencentral"
  }

  /** get_location_coords: total; the default comes back exactly for the strings the
      chain does not list (no listed code maps to the default). */
  function LocationCoords(location: string): (c: Coordinates)
    ensures c == Default <==> !Listed(location)
  {
    if location == "westeurope" then Coordinates(38.13, -78.45)
    else if location == "eastasia" then Coordinates(22.267, 114.188)
    else if location == "southeastasia" then Coordinates(1.283, 103.833)
    else if location == "centralus" then Coordinates(41.5908, -93.6208)
    else if location == "eastus" then Coordinates(37.3719, -79.8164)
    else if location == "eastus2" then Coordinates(36.6681, -78.3889)
    else if location == "westus" then Coordinates(37.783, -122.417)
    else if location == "northcentralus" then Coordinates(41.8819, -87.6278)
    else if location == "southcentralus" then Coordinates(29.4167, -98.5)
    else if location == "northeurope" then Coordinates(52.3667, 4.9)
    else if location == "japanwest" then Coordinates(34.6939, 135.5022)
    else if location == "Japan East" then Coordinates(35.68, 139.77)
    else if location == "brazilsouth" then Coordinates(-23.55, -46.633)
    else if location == "australiaeast" then Coordinates(-33.86, 151.2094)
    else if location == "australiasoutheast" then Coordinates(-37.8136, 144.9631)
    else if location == "southindia" then Coordinates(12.9822, 80.1636)
    else if location == "centralindia" then Coordinates(18.5822, 73.9197)
    else if location == "westindia" then Coordinates(19.088, 72.868)
    else if location == "jioindiawest" then Coordinates(22.470701, 70.05773)
    else if location == "jioindiacentral" then Coordinates(21.146633, 79.08886)
    else if location == "canadacentral" then Coordinates(43.653, -79.383)
    else if location == "canadaeast" then Coordinates(46.817, -71.217)
    else if location == "uksouth" then Coordinates(50.941, -0.799)
    else if location == "ukwest" then Coordinates(53.427, -3.084)
    else if location == "westcentralus" then Coordinates(40.890, -110.234)
    else if location == "westus2" then Coordinates(47.233, -119.852)
    else if location == "koreacentral" then Coordinates(37.5665, 126.9780)
    else if location == "koreasouth" then Coordinates(35.1796, 129.0756)
    else if location == "francecentral" then Coordinates(46.3772, 2.3730)
    else if location == "francesouth" then Coordinates(43.8345, 2.1972)
    else if location == "australiacentral" then Coordinates(-35.3075, 149.1244)
    else if location == "australiacentral2" then Coordinates(-35.3075, 149.1244)
    else if location == "uaecentral" then Coordinates(24.466667, 54.366669)
    else if location == "uaenorth" then Coordinates(25.266666, 55.316666)
    else if location == "southafricanorth" then Coordinates(-25.731340, 28.218370)
    else if location == "southafricawest" then Coordinates(-34.075691, 18.843266)
    else if location == "switzerlandnorth" then Coordinates(47.451542, 8.564572)
    else if location == "switzerlandwest" then Coordinates(46.204391, 6.143158)
    else if location == "germanynorth" then Coordinates(53.073635, 8.806422)
    else if location == "germanywestcentral" then Coordinates(50.110924, 8.682127)
    else if location == "norwaywest" then Coordinates(58.969975, 5.733107)
    else if location == "norwayeast" then Coordinates(59.913868, 10.752245)
    else if location == "brazilsoutheast" then Coordinates(-22.90278, -43.2075)
    else if location == "westus3" then Coordinates(33.448376, -112.074036)
    else if location == "swedencentral" then Coordinates(60.67488, 17.14127)
    else Default
  }

  /** The Japan East row is keyed `Japan East`, so resources in region `japaneast`
      get the default coordinates. */
  lemma JapanEastFallsBackToDefault()
    ensures !Listed("japaneast") && Listed("Japan East")
    ensures LocationCoords("japaneast") == Default
    ensures LocationCoords("Japan East") == Coordinates(35.68, 139.77)
  {
  }
}
