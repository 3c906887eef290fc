/** What adb says about one device. */
module AdbDevices {

  type Serial = string

  datatype Device = Device(serial: Serial, state: string)
}
