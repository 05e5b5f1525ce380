/**
 * BaseInfo: the mutable parameter bean callers fill before using the main
 * OperatingCamera.  Every field is a boxed Java object, so each may be null
 * (None); the setters store whatever they are given.  The getters are plain
 * field reads and appear here as the fields themselves.
 */
module Parameters {
  import opened Onvif

  newtype int32 = x: int | -0x8000_0000 <= x < 0x8000_0000
  newtype int64 = x: int | -0x8000_0000_0000_0000 <= x < 0x8000_0000_0000_0000

  class BaseInfo {
    var ipAddress: Option<string>
    var ipPort: Option<int32>
    var userName: Option<string>
    var password: Option<string>
    var url: Option<string>
    var timeOut: Option<int64>
    var speed: Option<real>

    constructor ()
      ensures ipAddress == None && ipPort == None && userName == None && password == None
      ensures url == None && timeOut == None && speed == None
    {
      ipAddress, ipPort, userName, password := None, None, None, None;
      url, timeOut, speed := None, None, None;
    }

    method SetIpAddress(v: Option<string>)
      modifies this
      ensures ipAddress == v
      ensures ipPort == old(ipPort) && userName == old(userName) && password == old(password)
      ensures url == old(url) && timeOut == old(timeOut) && speed == old(speed)
    {
      ipAddress := v;
    }

    method SetIpPort(v: Option<int32>)
      modifies this
      ensures ipPort == v
      ensures ipAddress == old(ipAddress) && userName == old(userName) && password == old(password)
      ensures url == old(url) && timeOut == old(timeOut) && speed == old(speed)
    {
      ipPort := v;
    }

    method SetUserName(v: Option<string>)
      modifies this
      ensures userName == v
      ensures ipAddress == old(ipAddress) && ipPort == old(ipPort) && password == old(password)
      ensures url == old(url) && timeOut == old(timeOut) && speed == old(speed)
    {
      userName := v;
    }

    method SetPassword(v: Option<string>)
      modifies this
      ensures password == v
      ensures ipAddress == old(ipAddress) && ipPort == old(ipPort) && userName == old(userName)
      ensures url == old(url) && timeOut == old(timeOut) && speed == old(speed)
    {
      password := v;
    }

    method SetUrl(v: Option<string>)
      modifies this
      ensures url == v
      ensures ipAddress == old(ipAddress) && ipPort == old(ipPort) && userName == old(userName)
      ensures password == old(password) && timeOut == old(timeOut) && speed == old(speed)
    {
      url := v;
    }

    method SetTimeOut(v: Option<int64>)
      modifies this
      ensures timeOut == v
      ensures ipAddress == old(ipAddress) && ipPort == old(ipPort) && userName == old(userName)
      ensures password == old(password) && url == old(url) && speed == old(speed)
    {
      timeOut := v;
    }

    method SetSpeed(v: Option<real>)
      modifies this
      ensures speed == v
      ensures ipAddress == old(ipAddress) && ipPort == old(ipPort) && userName == old(userName)
      ensures password == old(password) && url == old(url) && timeOut == old(timeOut)
    {
      speed := v;
    }
  }

  /**
   * The bean main() of the main OperatingCamera fills: address, user,
   * password, speed 0.2 and timeout 5000. Read back through the getters, each
   * field holds what main() set, and the port and URL it never sets are null.
   */
  method ConfigureExample()
    returns (ip: Option<string>, port: Option<int32>, user: Option<string>, password: Option<string>,
             url: Option<string>, timeOut: Option<int64>, speed: Option<real>)
    ensures ip == Some("192.168.2.139") && user == Some("admin") && password == Some("HuaWei123")
    ensures speed == Some(0.2) && timeOut == Some(5000)
    ensures port == None && url == None
  {
    var info := new BaseInfo();
    info.SetIpAddress(Some("192.168.2.139"));
    info.SetUserName(Some("admin"));
    info.SetPassword(Some("HuaWei123"));
    info.SetSpeed(Some(0.2));
    info.SetTimeOut(Some(5000));
    ip, port, user, password := info.ipAddress, info.ipPort, info.userName, info.password;
    url, timeOut, speed := info.url, info.timeOut, info.speed;
  }
}
