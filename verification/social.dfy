/** The optional `social` record shared by partners and the profile: a set of
    links keyed by network, where a missing key means "not provided". */
module Social {

  datatype Network = LinkedIn | Facebook | Instagram

  type Links = map<Network, string>
}
